/** The billing service: creation with defaults, partial update, deletion and
    lookup by appointment, over a repository of mutable bills. */
module Billing {
  import opened Base
  import opened Entities
  import opened BillEntity
  import opened Seqs

  /** Why the repository refuses to store a bill: the appointment join column is
      non-null and unique, and a reference to an unsaved appointment cannot be stored. */
  datatype BillError = AppointmentMissing | AppointmentUnsaved | AppointmentAlreadyBilled

  /** What creation does to the incoming bill before saving it: the appointment
      reference is replaced by the stored appointment of that id (or by null), a
      missing status becomes PENDING, a missing date becomes `now`, and the total
      is recomputed. */
  function Prepared(d: BillData, appointments: map<int, Appointment>, now: int): (r: BillData)
    ensures r.id == d.id && r.consultationFee == d.consultationFee && r.testCharges == d.testCharges
    ensures d.AppointmentId().Some? && d.AppointmentId().value in appointments ==>
              r.appointment == Some(appointments[d.AppointmentId().value])
    ensures d.AppointmentId().Some? && d.AppointmentId().value !in appointments ==> r.appointment.None?
    ensures d.AppointmentId().None? ==> r.appointment == d.appointment
    ensures d.paymentStatus.Some? ==> r.paymentStatus == d.paymentStatus
    ensures d.paymentStatus.None? ==> r.paymentStatus == Some(PENDING)
    ensures d.billDate.Some? ==> r.billDate == d.billDate
    ensures d.billDate.None? ==> r.billDate == Some(now)
    ensures r.TotalConsistent()
  {
    var appointment :=
      if d.AppointmentId().Some? then
        (if d.AppointmentId().value in appointments then Some(appointments[d.AppointmentId().value]) else None)
      else d.appointment;
    var status := if d.paymentStatus.None? then Some(PENDING) else d.paymentStatus;
    var date := if d.billDate.None? then Some(now) else d.billDate;
    d.(appointment := appointment, paymentStatus := status, billDate := date,
       totalAmount := Some(TotalOf(d.consultationFee, d.testCharges)))
  }

  /** What an update does to a stored bill: fee, charges and status are overwritten
      only where the supplied value is non-null, and the total is recomputed; the
      id, appointment and date are kept. */
  function Updated(stored: BillData, details: BillData): (r: BillData)
    ensures r.id == stored.id && r.appointment == stored.appointment && r.billDate == stored.billDate
    ensures r.consultationFee == if details.consultationFee.Some? then details.consultationFee else stored.consultationFee
    ensures r.testCharges == if details.testCharges.Some? then details.testCharges else stored.testCharges
    ensures r.paymentStatus == if details.paymentStatus.Some? then details.paymentStatus else stored.paymentStatus
    ensures r.TotalConsistent()
  {
    var fee := if details.consultationFee.Some? then details.consultationFee else stored.consultationFee;
    var charges := if details.testCharges.Some? then details.testCharges else stored.testCharges;
    var status := if details.paymentStatus.Some? then details.paymentStatus else stored.paymentStatus;
    stored.(consultationFee := fee, testCharges := charges, paymentStatus := status,
            totalAmount := Some(TotalOf(fee, charges)))
  }

  /** An update that supplies nothing leaves a consistent bill as it was. */
  lemma UpdateWithNothing(stored: BillData, details: BillData)
    requires stored.TotalConsistent()
    requires details.consultationFee.None? && details.testCharges.None? && details.paymentStatus.None?
    ensures Updated(stored, details) == stored
  {
  }

  /** Updating twice with the same details is the same as updating once. */
  lemma UpdateIdempotent(stored: BillData, details: BillData)
    ensures Updated(Updated(stored, details), details) == Updated(stored, details)
  {
  }

  class BillService {
    /** The bill repository, by id: the row each saved bill entity was written to. */
    var bills: map<int, BillData>
    /** The appointment repository, as billing reads it. */
    const appointments: map<int, Appointment>
    /** The next identity value the database hands out. */
    var nextId: int

    /** Database invariants: ids match their rows, every stored total is consistent,
        and the appointment join column is non-null and unique. */
    ghost predicate Valid()
      reads this
    {
      (forall k :: k in appointments ==> appointments[k].id == Some(k))
      && (forall k :: k in bills ==> k < nextId && bills[k].id == Some(k))
      && (forall k :: k in bills ==> bills[k].TotalConsistent())
      && (forall k :: k in bills ==> bills[k].AppointmentId().Some?)
      && (forall j, k :: j in bills && k in bills && j != k ==>
            bills[j].AppointmentId() != bills[k].AppointmentId())
    }

    /** The appointment ids that already have a bill. */
    ghost function Billed(): set<Option<int>>
      reads this
    {
      set k | k in bills :: bills[k].AppointmentId()
    }

    constructor (appointments: map<int, Appointment>)
      requires forall k :: k in appointments ==> appointments[k].id == Some(k)
      ensures Valid() && bills == map[] && this.appointments == appointments
    {
      bills := map[];
      this.appointments := appointments;
      nextId := 1;
    }

    /** The in-place steps of `createBill` before the save. */
    method PrepareForSave(bill: Bill, now: int)
      modifies bill
      ensures bill.Data() == Prepared(old(bill.Data()), appointments, now)
    {
      if bill.appointment.Some? && bill.appointment.value.id.Some? {
        var aid := bill.appointment.value.id.value;
        bill.appointment := if aid in appointments then Some(appointments[aid]) else None;
      }
      if bill.paymentStatus.None? {
        bill.paymentStatus := Some(PENDING);
      }
      if bill.billDate.None? {
        bill.billDate := Some(now);
      }
      bill.CalculateTotal();
    }

    /** `createBill`: prepares the incoming bill in place and saves it under a fresh
        id.  Saving fails when the resolved appointment is null or unsaved, or when
        it already has a bill. */
    method CreateBill(bill: Bill, now: int) returns (r: Result<BillData, BillError>)
      requires Valid()
      modifies this, bill
      ensures Valid()
      ensures var p := Prepared(old(bill.Data()), appointments, now);
        && (p.appointment.None? ==> r == Err(AppointmentMissing))
        && (p.appointment.Some? && p.AppointmentId().None? ==> r == Err(AppointmentUnsaved))
        && (p.AppointmentId().Some? ==> (r.Err? <==> p.AppointmentId() in old(Billed())))
        && (r.Err? ==> r.error == AppointmentAlreadyBilled || p.AppointmentId().None?)
        && (r.Ok? ==> r.value == bill.Data() && bill.Data() == p.(id := Some(old(nextId))))
        && (r.Err? ==> bill.Data() == p)
      ensures r.Ok? ==> bills == old(bills)[old(nextId) := r.value] && nextId == old(nextId) + 1
      ensures r.Err? ==> bills == old(bills) && nextId == old(nextId)
    {
      PrepareForSave(bill, now);
      if bill.appointment.None? {
        return Err(AppointmentMissing);
      }
      if bill.appointment.value.id.None? {
        return Err(AppointmentUnsaved);
      }
      var taken := FindByAppointmentId(bill.appointment.value.id.value);
      if taken.Some? {
        return Err(AppointmentAlreadyBilled);
      }
      bill.id := Some(nextId);
      bills := bills[nextId := bill.Data()];
      nextId := nextId + 1;
      r := Ok(bill.Data());
    }

    /** The in-place steps of `updateBill` on the loaded entity: the non-null
        fields of `details` are copied and the total recomputed. */
    method ApplyDetails(bill: Bill, details: BillData)
      modifies bill
      ensures bill.Data() == Updated(old(bill.Data()), details)
    {
      if details.consultationFee.Some? {
        bill.consultationFee := details.consultationFee;
      }
      if details.testCharges.Some? {
        bill.testCharges := details.testCharges;
      }
      if details.paymentStatus.Some? {
        bill.paymentStatus := details.paymentStatus;
      }
      bill.CalculateTotal();
    }

    /** `updateBill`: a missing id gives null and changes nothing; otherwise the
        loaded bill entity is changed in place, the row becomes
        `Updated(stored, details)` and no other row changes. */
    method UpdateBill(id: int, details: BillData) returns (r: Option<BillData>)
      requires Valid()
      modifies this`bills
      ensures Valid()
      ensures id !in old(bills) ==> r.None? && bills == old(bills)
      ensures id in old(bills) ==> r == Some(Updated(old(bills[id]), details))
                                   && bills == old(bills)[id := r.value]
    {
      if id !in bills {
        return None;
      }
      var bill := new Bill(bills[id]);
      ApplyDetails(bill, details);
      bills := bills[id := bill.Data()];
      r := Some(bill.Data());
    }

    /** `deleteBill`: true iff the id existed; afterwards it is absent. */
    method DeleteBill(id: int) returns (existed: bool)
      requires Valid()
      modifies this`bills
      ensures Valid()
      ensures existed == (id in old(bills))
      ensures bills == old(bills) - {id}
    {
      existed := id in bills;
      if existed {
        bills := bills - {id};
      }
    }

    /** `getBillByAppointmentId`: the bill referencing that appointment, if any;
        the uniqueness of the join column makes it the only one. */
    method FindByAppointmentId(appointmentId: int) returns (r: Option<BillData>)
      requires Valid()
      ensures r.Some? <==> Some(appointmentId) in Billed()
      ensures r.Some? ==> r.value.AppointmentId() == Some(appointmentId)
                          && r.value.id.Some? && r.value.id.value in bills
                          && bills[r.value.id.value] == r.value
    {
      var keys := bills.Keys;
      while keys != {}
        invariant keys <= bills.Keys
        invariant forall k :: k in bills && k !in keys ==> bills[k].AppointmentId() != Some(appointmentId)
        decreases |keys|
      {
        var k := Pick(keys);
        if bills[k].AppointmentId() == Some(appointmentId) {
          return Some(bills[k]);
        }
        keys := keys - {k};
      }
      return None;
    }
  }
}
