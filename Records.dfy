/** The stored appointment records the wizards create, load and update, reduced to
    the fields the wizards touch, with identifiers handed out in increasing order. */
module Records {

  import opened Wrappers
  import opened Decimal
  import opened PhpValues

  /** The allowed values of the `status` list field. */
  datatype Status = Pending | Confirmed | Cancelled

  datatype Appointment = Appointment(
    title: string,
    agency: Value, appointmentType: Value, adviser: Value,
    startDate: Value, endDate: Value,
    customerFirstName: Value, customerLastName: Value, customerEmail: Value, customerPhone: Value,
    status: Status)
  {
    /** The record with its four customer fields replaced. */
    function WithCustomer(firstName: Value, lastName: Value, email: Value, phone: Value): (r: Appointment)
      ensures r.customerFirstName == firstName && r.customerLastName == lastName
      ensures r.customerEmail == email && r.customerPhone == phone
      ensures r.title == title && r.agency == agency && r.appointmentType == appointmentType
      ensures r.adviser == adviser && r.startDate == startDate && r.endDate == endDate && r.status == status
    {
      this.(customerFirstName := firstName, customerLastName := lastName, customerEmail := email, customerPhone := phone)
    }
  }

  /** PHP `is_numeric` for the values an identifier arrives as: an integer or a
      non-empty string of decimal digits. */
  predicate IsNumeric(v: Value) {
    v.Int? || (v.Str? && |v.s| >= 1 && AllDigits(v.s))
  }

  /** The identifier a numeric value denotes. */
  function IdOf(v: Value): (r: Option<int>)
    ensures r.Some? <==> IsNumeric(v)
    ensures v.Int? ==> r == Some(v.i)
  {
    if v.Int? then Some(v.i)
    else if IsNumeric(v) then Some(ParseDigits(v.s))
    else None
  }

  /** The appointment storage. */
  class AppointmentStore {
    var records: map<int, Appointment>
    var nextId: int

    /** Every stored identifier was handed out before `nextId`. */
    ghost predicate Valid()
      reads this
    {
      nextId >= 1 && forall id :: id in records ==> 1 <= id < nextId
    }

    constructor()
      ensures Valid() && records == map[] && nextId == 1
    {
      records := map[];
      nextId := 1;
    }

    /** `load($id)`: the record, or nothing for an unknown or non-numeric identifier. */
    function Load(id: Value): (r: Option<Appointment>)
      reads this
      ensures r.Some? <==> IdOf(id).Some? && IdOf(id).value in records
      ensures r.Some? ==> r.value == records[IdOf(id).value]
    {
      var key := IdOf(id);
      if key.Some? && key.value in records then Some(records[key.value]) else None
    }

    /** `create(...)->save()` of a new record: it gets a fresh identifier. */
    method Create(record: Appointment) returns (id: int)
      requires Valid()
      modifies this
      ensures Valid()
      ensures id == old(nextId) && id !in old(records)
      ensures records == old(records)[id := record] && nextId == id + 1
    {
      id := nextId;
      records := records[id := record];
      nextId := nextId + 1;
    }

    /** `save()` of a loaded record. */
    method Update(id: int, record: Appointment)
      requires Valid() && id in records
      modifies this
      ensures Valid()
      ensures records == old(records)[id := record] && nextId == old(nextId)
    {
      records := records[id := record];
    }
  }
}
