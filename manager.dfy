/** `RentalManager`: the devices, customers and rentals of the tool, kept in
    three dictionaries keyed by id, and the operations that change them.

    Each operation is first a function on a `Store` value (what the call
    returns and what the three dictionaries hold afterwards); the class
    `RentalManager` then performs the same steps in place and is proved to
    reach exactly that state. Ids that the source draws from `uuid4` are
    passed in by the caller and must be fresh. Saving to the data file after
    each change is not part of this model. */
module Manager {
  import opened Results
  import opened Models
  import opened Sorting

  /** The `ValueError`s (and the two other exceptions) the operations raise. */
  datatype Failure =
    | DeviceNotFound      // device id unknown
    | CustomerNotFound    // customer id unknown
    | DeviceNotAvailable  // device status is not "available"
    | RentalNotFound      // rental id unknown
    | RentalNotActive     // rental already returned
    | ReturnBeforeStart   // return date before the start date
    | InvalidDate         // `parse_date` raised
    | MissingPlannedEnd   // `Rental(...)` called without `planned_end_date` (TypeError)
    | DeviceMissing       // the rental's device is not in `devices` (KeyError)

  datatype Store = Store(
    devices: map<string, Device>,
    customers: map<string, Customer>,
    rentals: map<string, Rental>)
  {
    /** What the operations maintain: rentals refer to known devices and
        customers, a device has at most one active rental and is "rented"
        while it has one, and a closed rental carries its return date (not
        before its start) and its cost. */
    ghost predicate Consistent() {
      && (forall id | id in rentals ::
            rentals[id].deviceId in devices && rentals[id].customerId in customers)
      && (forall id | id in rentals && rentals[id].status == Active ::
            devices[rentals[id].deviceId].status == Rented)
      && (forall a, b | a in rentals && b in rentals && rentals[a].status == Active
                        && rentals[b].status == Active && rentals[a].deviceId == rentals[b].deviceId ::
            a == b)
      && (forall id | id in rentals && rentals[id].status == Closed ::
            && rentals[id].endDate.Some?
            && rentals[id].endDate.value >= rentals[id].startDate
            && rentals[id].totalCost.Some?)
    }

    /** `add_device`: a new device, "available", under a fresh id. */
    function AddDevice(id: string, name: string, category: string, dailyRate: int): (r: (Store, Device))
      requires id !in devices
      ensures r.1 == Device(id, name, category, dailyRate, Available)
      ensures r.0 == this.(devices := devices[id := r.1])
    {
      var device := Device(id, name, category, dailyRate, Available);
      (this.(devices := devices[id := device]), device)
    }

    /** `add_customer`: a new customer under a fresh id. */
    function AddCustomer(id: string, name: string, phone: string, email: string): (r: (Store, Customer))
      requires id !in customers
      ensures r.1 == Customer(id, name, phone, email)
      ensures r.0 == this.(customers := customers[id := r.1])
    {
      var customer := Customer(id, name, phone, email);
      (this.(customers := customers[id := customer]), customer)
    }

    /** `rent_device` as intended: the planned end date, which the source
        leaves out of the `Rental(...)` call, is taken to be the start date,
        the fallback `Rental.from_dict` uses for a record without one. */
    function Rent(rentalId: string, deviceId: string, customerId: string, startDate: string, notes: string)
      : (r: (Store, Result<Rental, Failure>))
      requires rentalId !in rentals
      ensures r.1.Err? ==> r.0 == this
      ensures r.1.Ok? <==> deviceId in devices && customerId in customers
                           && devices[deviceId].status == Available && ParseDate(startDate).Some?
      ensures r.1.Ok? ==> && r.0.rentals.Keys == rentals.Keys + {rentalId}
                          && r.0.rentals[rentalId] == r.1.value
                          && r.1.value.status == Active
                          && r.0.devices.Keys == devices.Keys
                          && r.0.devices[deviceId].status == Rented
    {
      if deviceId !in devices then (this, Err(DeviceNotFound))
      else if customerId !in customers then (this, Err(CustomerNotFound))
      else if devices[deviceId].status != Available then (this, Err(DeviceNotAvailable))
      else match ParseDate(startDate)
        case None => (this, Err(InvalidDate))
        case Some(start) =>
          var rental := Rental(rentalId, deviceId, customerId, start, start, None, Active, notes, None, "");
          (this.(devices := devices[deviceId := devices[deviceId].(status := Rented)],
                 rentals := rentals[rentalId := rental]),
           Ok(rental))
    }

    /** `rent_device` as written: the same guards, then `Rental(...)` is
        called without its required `planned_end_date` and raises before
        anything is changed. */
    function RentAsWritten(deviceId: string, customerId: string, startDate: string, notes: string)
      : (r: (Store, Result<Rental, Failure>))
      ensures r.0 == this && r.1.Err?
    {
      if deviceId !in devices then (this, Err(DeviceNotFound))
      else if customerId !in customers then (this, Err(CustomerNotFound))
      else if devices[deviceId].status != Available then (this, Err(DeviceNotAvailable))
      else if ParseDate(startDate).None? then (this, Err(InvalidDate))
      else (this, Err(MissingPlannedEnd))
    }

    /** `return_device`. The rental is closed in place before the device's
        rate is looked up, so a rental whose device is unknown is left
        closed, with its cost unchanged (none is computed), when the lookup
        raises. */
    function Return(rentalId: string, returnDate: string): (r: (Store, Result<Rental, Failure>))
      ensures r.1.Err? && r.1 != Err(DeviceMissing) ==> r.0 == this
      ensures r.1.Ok? ==> && rentalId in rentals && rentals[rentalId].status == Active
                          && r.0.rentals.Keys == rentals.Keys
                          && r.0.rentals[rentalId] == r.1.value
                          && r.1.value.status == Closed
                          && r.1.value.endDate.Some? && r.1.value.endDate.value >= r.1.value.startDate
                          && r.0.devices.Keys == devices.Keys
                          && r.1.value.deviceId in devices
                          && r.0.devices[r.1.value.deviceId].status == Available
    {
      if rentalId !in rentals then (this, Err(RentalNotFound))
      else
        var rental := rentals[rentalId];
        if rental.status != Active then (this, Err(RentalNotActive))
        else match ParseDate(returnDate)
          case None => (this, Err(InvalidDate))
          case Some(end) =>
            if end < rental.startDate then (this, Err(ReturnBeforeStart))
            else
              var closing := rental.(endDate := Some(end), status := Closed);
              if rental.deviceId !in devices then
                (this.(rentals := rentals[rentalId := closing]), Err(DeviceMissing))
              else
                var days := end - rental.startDate + 1;
                var closed := closing.(totalCost := Some(days * devices[rental.deviceId].dailyRate));
                (this.(rentals := rentals[rentalId := closed],
                       devices := devices[rental.deviceId := devices[rental.deviceId].(status := Available)]),
                 Ok(closed))
    }
  }

  // ------------------------------------------------------------- rent_device

  lemma RentRejects(s: Store, rentalId: string, deviceId: string, customerId: string, startDate: string, notes: string)
    requires rentalId !in s.rentals
    ensures deviceId !in s.devices ==>
              s.Rent(rentalId, deviceId, customerId, startDate, notes) == (s, Err(DeviceNotFound))
    ensures deviceId in s.devices && customerId !in s.customers ==>
              s.Rent(rentalId, deviceId, customerId, startDate, notes) == (s, Err(CustomerNotFound))
    ensures deviceId in s.devices && customerId in s.customers && s.devices[deviceId].status != Available ==>
              s.Rent(rentalId, deviceId, customerId, startDate, notes) == (s, Err(DeviceNotAvailable))
    ensures deviceId in s.devices && customerId in s.customers
            && s.devices[deviceId].status in {Rented, Maintenance} ==>
              s.Rent(rentalId, deviceId, customerId, startDate, notes) == (s, Err(DeviceNotAvailable))
    ensures deviceId in s.devices && customerId in s.customers && s.devices[deviceId].status == Available
            && ParseDate(startDate).None? ==>
              s.Rent(rentalId, deviceId, customerId, startDate, notes) == (s, Err(InvalidDate))
  {
  }

  lemma RentEffect(s: Store, rentalId: string, deviceId: string, customerId: string, startDate: string, notes: string)
    requires rentalId !in s.rentals
    requires deviceId in s.devices && customerId in s.customers
    requires s.devices[deviceId].status == Available
    requires ParseDate(startDate).Some?
    ensures var (t, out) := s.Rent(rentalId, deviceId, customerId, startDate, notes);
      && out.Ok?
      && t.rentals.Keys == s.rentals.Keys + {rentalId}
      && t.rentals[rentalId] == out.value
      && out.value.id == rentalId && out.value.deviceId == deviceId && out.value.customerId == customerId
      && out.value.startDate == ParseDate(startDate).value
      && out.value.status == Active && out.value.endDate == None && out.value.totalCost == None
      && out.value.notes == notes
      && out.value.plannedEndDate == out.value.startDate  // the model's stand-in for the omitted field
      && out.value.address == ""
      && (forall id | id in s.rentals :: t.rentals[id] == s.rentals[id])
      && t.devices.Keys == s.devices.Keys
      && t.devices[deviceId] == s.devices[deviceId].(status := Rented)
      && (forall id | id in s.devices && id != deviceId :: t.devices[id] == s.devices[id])
      && t.customers == s.customers
  {
  }

  /** The rent operation as written never succeeds: every call that gets
      past the guards ends in the TypeError. */
  lemma RentAsWrittenFails(s: Store, deviceId: string, customerId: string, startDate: string, notes: string)
    requires deviceId in s.devices && customerId in s.customers
    requires s.devices[deviceId].status == Available
    requires ParseDate(startDate).Some?
    ensures s.RentAsWritten(deviceId, customerId, startDate, notes) == (s, Err(MissingPlannedEnd))
    ensures forall rentalId | rentalId !in s.rentals ::
              s.Rent(rentalId, deviceId, customerId, startDate, notes).1.Ok?
  {
  }

  // ----------------------------------------------------------- return_device

  lemma ReturnRejects(s: Store, rentalId: string, returnDate: string)
    ensures rentalId !in s.rentals ==> s.Return(rentalId, returnDate) == (s, Err(RentalNotFound))
    ensures rentalId in s.rentals && s.rentals[rentalId].status != Active ==>
              s.Return(rentalId, returnDate) == (s, Err(RentalNotActive))
    ensures rentalId in s.rentals && s.rentals[rentalId].status == Active && ParseDate(returnDate).None? ==>
              s.Return(rentalId, returnDate) == (s, Err(InvalidDate))
    ensures rentalId in s.rentals && s.rentals[rentalId].status == Active && ParseDate(returnDate).Some?
            && ParseDate(returnDate).value < s.rentals[rentalId].startDate ==>
              s.Return(rentalId, returnDate) == (s, Err(ReturnBeforeStart))
  {
  }

  lemma ReturnEffect(s: Store, rentalId: string, returnDate: string)
    requires rentalId in s.rentals && s.rentals[rentalId].status == Active
    requires ParseDate(returnDate).Some? && ParseDate(returnDate).value >= s.rentals[rentalId].startDate
    requires s.rentals[rentalId].deviceId in s.devices
    ensures var (t, out) := s.Return(rentalId, returnDate);
      var old_ := s.rentals[rentalId];
      var end := ParseDate(returnDate).value;
      var deviceId := old_.deviceId;
      && out == Ok(t.rentals[rentalId])
      && t.rentals.Keys == s.rentals.Keys
      && t.rentals[rentalId] == old_.(endDate := Some(end), status := Closed,
                                      totalCost := Some((end - old_.startDate + 1) * s.devices[deviceId].dailyRate))
      && (forall id | id in s.rentals && id != rentalId :: t.rentals[id] == s.rentals[id])
      && t.devices.Keys == s.devices.Keys
      && t.devices[deviceId] == s.devices[deviceId].(status := Available)
      && (forall id | id in s.devices && id != deviceId :: t.devices[id] == s.devices[id])
      && t.customers == s.customers
  {
  }

  /** Billing covers both the first and the return day, so at least one day
      is charged and a non-negative rate never gives a negative cost. */
  lemma ReturnCost(s: Store, rentalId: string, returnDate: string)
    requires s.Return(rentalId, returnDate).1.Ok?
    ensures var closed := s.Return(rentalId, returnDate).1.value;
      var rate := s.devices[closed.deviceId].dailyRate;
      && closed.endDate.Some? && closed.totalCost.Some?
      && closed.endDate.value - closed.startDate + 1 >= 1
      && closed.totalCost.value == (closed.endDate.value - closed.startDate + 1) * rate
      && (rate >= 0 ==> closed.totalCost.value >= 0)
  {
    var closed := s.Return(rentalId, returnDate).1.value;
    var days := closed.endDate.value - closed.startDate + 1;
    var rate := s.devices[closed.deviceId].dailyRate;
    if rate >= 0 {
      assert days * rate >= 0;
    }
  }

  /** A rental cannot be returned twice. */
  lemma ReturnTwiceFails(s: Store, rentalId: string, returnDate: string, again: string)
    requires s.Return(rentalId, returnDate).1.Ok?
    ensures var t := s.Return(rentalId, returnDate).0;
      t.Return(rentalId, again) == (t, Err(RentalNotActive))
  {
  }

  /** In a consistent store the rental's device is always found. */
  lemma ConsistentReturnFindsDevice(s: Store, rentalId: string, returnDate: string)
    requires s.Consistent()
    ensures s.Return(rentalId, returnDate).1 != Err(DeviceMissing)
  {
  }

  // --------------------------------------------------------------- invariant

  lemma EmptyConsistent()
    ensures Store(map[], map[], map[]).Consistent()
  {
  }

  lemma AddDeviceConsistent(s: Store, id: string, name: string, category: string, dailyRate: int)
    requires s.Consistent() && id !in s.devices
    ensures s.AddDevice(id, name, category, dailyRate).0.Consistent()
  {
  }

  lemma AddCustomerConsistent(s: Store, id: string, name: string, phone: string, email: string)
    requires s.Consistent() && id !in s.customers
    ensures s.AddCustomer(id, name, phone, email).0.Consistent()
  {
  }

  lemma RentConsistent(s: Store, rentalId: string, deviceId: string, customerId: string, startDate: string, notes: string)
    requires s.Consistent() && rentalId !in s.rentals
    ensures s.Rent(rentalId, deviceId, customerId, startDate, notes).0.Consistent()
  {
  }

  lemma ReturnConsistent(s: Store, rentalId: string, returnDate: string)
    requires s.Consistent()
    ensures s.Return(rentalId, returnDate).0.Consistent()
  {
  }

  // ----------------------------------------------------------------- queries

  predicate NameOrder(a: Device, b: Device) {
    StrLeq(a.name, b.name)
  }

  predicate CustomerNameOrder(a: Customer, b: Customer) {
    StrLeq(a.name, b.name)
  }

  /** `reverse=True` on the start date: later starts first. */
  predicate LatestStartFirst(a: Rental, b: Rental) {
    a.startDate >= b.startDate
  }

  lemma NameOrdersAreTotalOrders()
    ensures Total(NameOrder) && Transitive(NameOrder)
    ensures Total(CustomerNameOrder) && Transitive(CustomerNameOrder)
  {
    forall a: string, b: string ensures StrLeq(a, b) || StrLeq(b, a) {
      StrLeqTotal(a, b);
    }
    forall a: string, b: string, c: string | StrLeq(a, b) && StrLeq(b, c) ensures StrLeq(a, c) {
      StrLeqTransitive(a, b, c);
    }
  }

  /** `list_devices`: the devices, in the dictionary's insertion order, kept
      when `status` is empty (Python's `None` or `""`) or equal to theirs,
      sorted by name. */
  function ListDevices(devices: seq<Device>, status: string): (r: seq<Device>)
    ensures forall i, j :: 0 <= i < j < |r| ==> StrLeq(r[i].name, r[j].name)
    ensures forall d :: multiset(r)[d] == if status == [] || d.status == status then multiset(devices)[d] else 0
  {
    var kept := if status == [] then devices else Filter(devices, (d: Device) => d.status == status);
    NameOrdersAreTotalOrders();
    SortSorted(kept, NameOrder);
    Sort(kept, NameOrder)
  }

  /** `list_customers`: every customer, sorted by name. */
  function ListCustomers(customers: seq<Customer>): (r: seq<Customer>)
    ensures forall i, j :: 0 <= i < j < |r| ==> StrLeq(r[i].name, r[j].name)
    ensures multiset(r) == multiset(customers)
  {
    NameOrdersAreTotalOrders();
    SortSorted(customers, CustomerNameOrder);
    Sort(customers, CustomerNameOrder)
  }

  /** `list_rentals`: the rentals kept by the same status filter, the latest
      start first. */
  function ListRentals(rentals: seq<Rental>, status: string): (r: seq<Rental>)
    ensures forall i, j :: 0 <= i < j < |r| ==> r[i].startDate >= r[j].startDate
    ensures forall x :: multiset(r)[x] == if status == [] || x.status == status then multiset(rentals)[x] else 0
  {
    var kept := if status == [] then rentals else Filter(rentals, (x: Rental) => x.status == status);
    SortSorted(kept, LatestStartFirst);
    Sort(kept, LatestStartFirst)
  }

  /** An insertion order of a dictionary: every key, each exactly once. */
  ghost predicate IsKeyOrder<V>(order: seq<string>, m: map<string, V>) {
    && (forall i, j :: 0 <= i < j < |order| ==> order[i] != order[j])
    && (forall k :: k in m <==> k in order)
  }

  /** `d.values()` for a dictionary whose keys were inserted in `order`. */
  function ValuesIn<V(==)>(m: map<string, V>, order: seq<string>): (vs: seq<V>)
    requires IsKeyOrder(order, m)
    ensures |vs| == |order| && forall i :: 0 <= i < |order| ==> vs[i] == m[order[i]]
    ensures forall k | k in m :: m[k] in vs
    ensures forall v | v in vs :: v in m.Values
  {
    var vs := seq(|order|, i requires 0 <= i < |order| => m[order[i]]);
    assert forall k | k in m :: m[k] in vs by {
      forall k | k in m ensures m[k] in vs {
        var i :| 0 <= i < |order| && order[i] == k;
        assert vs[i] == m[k];
      }
    }
    vs
  }

  /** `list_devices` on a store: every device the status filter keeps, and
      only those, sorted by name. */
  function DeviceListing(s: Store, order: seq<string>, status: string): (r: seq<Device>)
    requires IsKeyOrder(order, s.devices)
    ensures forall i, j :: 0 <= i < j < |r| ==> StrLeq(r[i].name, r[j].name)
    ensures forall id | id in s.devices && (status == [] || s.devices[id].status == status) :: s.devices[id] in r
    ensures forall d | d in r :: d in s.devices.Values && (status == [] || d.status == status)
  {
    var vs := ValuesIn(s.devices, order);
    var r := ListDevices(vs, status);
    assert forall d | d in r :: d in vs by {
      forall d | d in r ensures d in vs {
        assert multiset(r)[d] > 0;
      }
    }
    assert forall id | id in s.devices && (status == [] || s.devices[id].status == status) :: s.devices[id] in r by {
      forall id | id in s.devices && (status == [] || s.devices[id].status == status) ensures s.devices[id] in r {
        assert multiset(vs)[s.devices[id]] > 0;
      }
    }
    r
  }

  /** `list_customers` on a store: every customer, sorted by name. */
  function CustomerListing(s: Store, order: seq<string>): (r: seq<Customer>)
    requires IsKeyOrder(order, s.customers)
    ensures forall i, j :: 0 <= i < j < |r| ==> StrLeq(r[i].name, r[j].name)
    ensures forall id | id in s.customers :: s.customers[id] in r
    ensures forall c | c in r :: c in s.customers.Values
  {
    var vs := ValuesIn(s.customers, order);
    var r := ListCustomers(vs);
    assert forall c | c in r :: c in vs by {
      forall c | c in r ensures c in vs {
        assert multiset(r)[c] > 0;
      }
    }
    assert forall id | id in s.customers :: s.customers[id] in r by {
      forall id | id in s.customers ensures s.customers[id] in r {
        assert multiset(vs)[s.customers[id]] > 0;
      }
    }
    r
  }

  /** `list_rentals` on a store: every rental the status filter keeps, and
      only those, the latest start first. */
  function RentalListing(s: Store, order: seq<string>, status: string): (r: seq<Rental>)
    requires IsKeyOrder(order, s.rentals)
    ensures forall i, j :: 0 <= i < j < |r| ==> r[i].startDate >= r[j].startDate
    ensures forall id | id in s.rentals && (status == [] || s.rentals[id].status == status) :: s.rentals[id] in r
    ensures forall x | x in r :: x in s.rentals.Values && (status == [] || x.status == status)
  {
    var vs := ValuesIn(s.rentals, order);
    var r := ListRentals(vs, status);
    assert forall x | x in r :: x in vs by {
      forall x | x in r ensures x in vs {
        assert multiset(r)[x] > 0;
      }
    }
    assert forall id | id in s.rentals && (status == [] || s.rentals[id].status == status) :: s.rentals[id] in r by {
      forall id | id in s.rentals && (status == [] || s.rentals[id].status == status) ensures s.rentals[id] in r {
        assert multiset(vs)[s.rentals[id]] > 0;
      }
    }
    r
  }

  // ------------------------------------------------------------------- class

  class RentalManager {
    var devices: map<string, Device>
    var customers: map<string, Customer>
    var rentals: map<string, Rental>

    function State(): Store
      reads this
    {
      Store(devices, customers, rentals)
    }

    ghost predicate Valid()
      reads this
    {
      State().Consistent()
    }

    /** A manager over an empty data file. */
    constructor ()
      ensures State() == Store(map[], map[], map[])
      ensures Valid()
    {
      devices, customers, rentals := map[], map[], map[];
      EmptyConsistent();
    }

    method AddDevice(id: string, name: string, category: string, dailyRate: int) returns (device: Device)
      requires id !in devices
      modifies this
      ensures (State(), device) == old(State()).AddDevice(id, name, category, dailyRate)
      ensures old(Valid()) ==> Valid()
    {
      device := Device(id, name, category, dailyRate, Available);
      devices := devices[id := device];
      if old(Valid()) {
        AddDeviceConsistent(old(State()), id, name, category, dailyRate);
      }
    }

    method AddCustomer(id: string, name: string, phone: string, email: string) returns (customer: Customer)
      requires id !in customers
      modifies this
      ensures (State(), customer) == old(State()).AddCustomer(id, name, phone, email)
      ensures old(Valid()) ==> Valid()
    {
      customer := Customer(id, name, phone, email);
      customers := customers[id := customer];
      if old(Valid()) {
        AddCustomerConsistent(old(State()), id, name, phone, email);
      }
    }

    method RentDevice(rentalId: string, deviceId: string, customerId: string, startDate: string, notes: string)
      returns (result: Result<Rental, Failure>)
      requires rentalId !in rentals
      modifies this
      ensures (State(), result) == old(State()).Rent(rentalId, deviceId, customerId, startDate, notes)
      ensures old(Valid()) ==> Valid()
    {
      if deviceId !in devices {
        return Err(DeviceNotFound);
      }
      if customerId !in customers {
        return Err(CustomerNotFound);
      }
      var device := devices[deviceId];
      if device.status != Available {
        return Err(DeviceNotAvailable);
      }
      var start := ParseDate(startDate);
      if start.None? {
        return Err(InvalidDate);
      }
      // The source omits planned_end_date here; the start date stands in for it.
      var rental := Rental(rentalId, deviceId, customerId, start.value, start.value, None, Active, notes, None, "");
      devices := devices[deviceId := device.(status := Rented)];
      rentals := rentals[rentalId := rental];
      if old(Valid()) {
        RentConsistent(old(State()), rentalId, deviceId, customerId, startDate, notes);
      }
      return Ok(rental);
    }

    method ReturnDevice(rentalId: string, returnDate: string) returns (result: Result<Rental, Failure>)
      modifies this
      ensures (State(), result) == old(State()).Return(rentalId, returnDate)
      ensures old(Valid()) ==> Valid()
    {
      if rentalId !in rentals {
        return Err(RentalNotFound);
      }
      var rental := rentals[rentalId];
      if rental.status != Active {
        return Err(RentalNotActive);
      }
      var endDate := ParseDate(returnDate);
      if endDate.None? {
        return Err(InvalidDate);
      }
      if endDate.value < rental.startDate {
        return Err(ReturnBeforeStart);
      }
      rental := rental.(endDate := Some(endDate.value), status := Closed);
      rentals := rentals[rentalId := rental];
      var days := endDate.value - rental.startDate + 1;
      if rental.deviceId !in devices {
        if old(Valid()) {
          ConsistentReturnFindsDevice(old(State()), rentalId, returnDate);
        }
        return Err(DeviceMissing);
      }
      var dailyRate := devices[rental.deviceId].dailyRate;
      rental := rental.(totalCost := Some(days * dailyRate));
      rentals := rentals[rentalId := rental];
      assert rentals == old(rentals)[rentalId := rental];
      devices := devices[rental.deviceId := devices[rental.deviceId].(status := Available)];
      if old(Valid()) {
        ReturnConsistent(old(State()), rentalId, returnDate);
      }
      return Ok(rental);
    }
  }
}
