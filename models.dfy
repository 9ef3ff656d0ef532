/** The three records of the rental tool (`Device`, `Customer`, `Rental`) and
    their conversion to and from the flat dictionaries that are stored as JSON.

    Abstractions:
    - a calendar date is its day number; its text form is the decimal digits of
      that number, so `ParseDate`/`FormatDate` stand for the `%Y-%m-%d` pair as
      a bijection with `ParseDate(FormatDate(d)) == Some(d)`;
    - money (`daily_rate`, `total_cost`) is an integer number of cents, so the
      two-decimal rounding of the source is exact;
    - a dictionary is a map from field name to a small JSON value. */
module Models {
  import opened Results

  type Day = nat

  const Available := "available"
  const Rented := "rented"
  const Maintenance := "maintenance"
  const Active := "active"
  const Closed := "closed"

  // ---------------------------------------------------------------- dates

  predicate IsDigit(c: char) {
    '0' <= c <= '9'
  }

  function DigitChar(n: nat): (c: char)
    requires n < 10
    ensures IsDigit(c)
  {
    '0' + n as char
  }

  function DigitValue(c: char): (n: nat)
    requires IsDigit(c)
    ensures n < 10
  {
    (c - '0') as nat
  }

  /** `format_date`: the text form of a date. Never empty, so always truthy. */
  function FormatDate(d: Day): (s: string)
    ensures s != []
    ensures forall i :: 0 <= i < |s| ==> IsDigit(s[i])
  {
    if d < 10 then [DigitChar(d)] else FormatDate(d / 10) + [DigitChar(d % 10)]
  }

  /** `parse_date`: `None` stands for the `ValueError` raised on text that is
      not a date. */
  function ParseDate(s: string): (r: Option<Day>)
    ensures r.Some? <==> s != [] && forall i :: 0 <= i < |s| ==> IsDigit(s[i])
  {
    if s == [] || !IsDigit(s[|s| - 1]) then None
    else if |s| == 1 then Some(DigitValue(s[0]))
    else
      match ParseDate(s[..|s| - 1])
      case None => None
      case Some(p) => Some(p * 10 + DigitValue(s[|s| - 1]))
  }

  lemma {:induction false} ParseFormatDate(d: Day)
    ensures ParseDate(FormatDate(d)) == Some(d)
  {
    if d >= 10 {
      var s := FormatDate(d);
      assert s[..|s| - 1] == FormatDate(d / 10);
      ParseFormatDate(d / 10);
    }
  }

  // ---------------------------------------------------------- dictionaries

  /** The values a stored record holds. A number is an amount in cents. */
  datatype Json = JStr(str: string) | JNum(num: int) | JNull

  type Record = map<string, Json>

  /** Python truthiness of `data.get(key)`: a missing key gives `None`. */
  predicate Truthy(data: Record, key: string) {
    key in data &&
    match data[key]
    case JStr(s) => s != []
    case JNum(n) => n != 0
    case JNull => false
  }

  datatype LoadError =
    | MissingField(field: string)  // KeyError from `data[field]`
    | WrongType(field: string)     // a value of a type the record cannot hold
    | BadDate(field: string)       // `parse_date` raised

  /** `data[key]` for a text field. */
  function Text(data: Record, key: string): (r: Result<string, LoadError>)
    ensures key !in data ==> r == Err(MissingField(key))
    ensures r.Ok? <==> key in data && data[key].JStr?
  {
    if key !in data then Err(MissingField(key))
    else if data[key].JStr? then Ok(data[key].str)
    else Err(WrongType(key))
  }

  /** `data.get(key, default)` for a text field. */
  function TextOr(data: Record, key: string, default: string): (r: Result<string, LoadError>)
    ensures key !in data ==> r == Ok(default)
    ensures key in data ==> (r.Ok? <==> data[key].JStr?)
  {
    if key !in data then Ok(default)
    else if data[key].JStr? then Ok(data[key].str)
    else Err(WrongType(key))
  }

  /** `parse_date(value)`; a value that is not text fails as well. */
  function DateOf(value: Json, key: string): (r: Result<Day, LoadError>)
    ensures r.Ok? <==> value.JStr? && ParseDate(value.str).Some?
  {
    match value
    case JStr(s) => if ParseDate(s).Some? then Ok(ParseDate(s).value) else Err(BadDate(key))
    case _ => Err(BadDate(key))
  }

  // ---------------------------------------------------------------- Device

  datatype Device = Device(id: string, name: string, category: string, dailyRate: int, status: string)

  function DeviceToDict(d: Device): (data: Record)
    ensures data.Keys == {"id", "name", "category", "daily_rate", "status"}
  {
    map["id" := JStr(d.id), "name" := JStr(d.name), "category" := JStr(d.category),
        "daily_rate" := JNum(d.dailyRate), "status" := JStr(d.status)]
  }

  function DeviceFromDict(data: Record): (r: Result<Device, LoadError>)
    ensures "id" !in data ==> r == Err(MissingField("id"))
    ensures "id" in data && "name" !in data ==> r.Err?
    ensures r.Ok? ==> JStr(r.value.id) == data["id"] && JStr(r.value.name) == data["name"]
  {
    var id :- Text(data, "id");
    var name :- Text(data, "name");
    var category :- TextOr(data, "category", "unknown");
    // float(data.get("daily_rate", 0.0))
    var dailyRate :-
      if "daily_rate" !in data then Ok(0)
      else if data["daily_rate"].JNum? then Ok(data["daily_rate"].num)
      else Err(WrongType("daily_rate"));
    var status :- TextOr(data, "status", Available);
    Ok(Device(id, name, category, dailyRate, status))
  }

  lemma DeviceRoundTrip(d: Device)
    ensures DeviceFromDict(DeviceToDict(d)) == Ok(d)
  {
  }

  lemma DeviceDefaults(data: Record)
    requires DeviceFromDict(data).Ok?
    ensures "category" !in data ==> DeviceFromDict(data).value.category == "unknown"
    ensures "daily_rate" !in data ==> DeviceFromDict(data).value.dailyRate == 0
    ensures "status" !in data ==> DeviceFromDict(data).value.status == Available
  {
  }

  // -------------------------------------------------------------- Customer

  datatype Customer = Customer(id: string, name: string, phone: string, email: string)

  function CustomerToDict(c: Customer): (data: Record)
    ensures data.Keys == {"id", "name", "phone", "email"}
  {
    map["id" := JStr(c.id), "name" := JStr(c.name), "phone" := JStr(c.phone), "email" := JStr(c.email)]
  }

  function CustomerFromDict(data: Record): (r: Result<Customer, LoadError>)
    ensures "id" !in data ==> r == Err(MissingField("id"))
    ensures "id" in data && "name" !in data ==> r.Err?
    ensures r.Ok? ==> JStr(r.value.id) == data["id"] && JStr(r.value.name) == data["name"]
  {
    var id :- Text(data, "id");
    var name :- Text(data, "name");
    var phone :- TextOr(data, "phone", "");
    var email :- TextOr(data, "email", "");
    Ok(Customer(id, name, phone, email))
  }

  lemma CustomerRoundTrip(c: Customer)
    ensures CustomerFromDict(CustomerToDict(c)) == Ok(c)
  {
  }

  lemma CustomerDefaults(data: Record)
    requires CustomerFromDict(data).Ok?
    ensures "phone" !in data ==> CustomerFromDict(data).value.phone == ""
    ensures "email" !in data ==> CustomerFromDict(data).value.email == ""
  {
  }

  // ---------------------------------------------------------------- Rental

  datatype Rental = Rental(
    id: string,
    deviceId: string,
    customerId: string,
    startDate: Day,
    plannedEndDate: Day,
    endDate: Option<Day>,
    status: string,
    notes: string,
    totalCost: Option<int>,
    address: string)

  function RentalToDict(r: Rental): (data: Record)
    ensures data.Keys == {"id", "device_id", "customer_id", "start_date", "planned_end_date",
                          "end_date", "status", "notes", "total_cost", "address"}
    ensures data["end_date"] == JNull <==> r.endDate.None?
    ensures data["total_cost"] == JNull <==> r.totalCost.None?
  {
    map["id" := JStr(r.id),
        "device_id" := JStr(r.deviceId),
        "customer_id" := JStr(r.customerId),
        "start_date" := JStr(FormatDate(r.startDate)),
        "planned_end_date" := JStr(FormatDate(r.plannedEndDate)),
        "end_date" := (match r.endDate case Some(e) => JStr(FormatDate(e)) case None => JNull),
        "status" := JStr(r.status),
        "notes" := JStr(r.notes),
        "total_cost" := (match r.totalCost case Some(c) => JNum(c) case None => JNull),
        "address" := JStr(r.address)]
  }

  /** The planned end of a stored rental, given its already parsed start.
      The default argument of `data.get("planned_end_date", data["end_date"])`
      is evaluated first, so the key `end_date` must be present whenever
      this branch is taken, and a `planned_end_date` key that is present
      but falsy is still the one that gets parsed. */
  function PlannedEndOf(data: Record, start: Day): (r: Result<Day, LoadError>)
    ensures !Truthy(data, "planned_end_date") && !Truthy(data, "end_date") ==> r == Ok(start)
    ensures (Truthy(data, "planned_end_date") || Truthy(data, "end_date")) && "end_date" !in data ==>
              r == Err(MissingField("end_date"))
    ensures r.Ok? && Truthy(data, "planned_end_date") ==>
              DateOf(data["planned_end_date"], "planned_end_date") == r
    ensures r.Ok? && !Truthy(data, "planned_end_date") && Truthy(data, "end_date") ==>
              "planned_end_date" !in data && DateOf(data["end_date"], "end_date") == r
  {
    if Truthy(data, "planned_end_date") || Truthy(data, "end_date") then
      if "end_date" !in data then Err(MissingField("end_date"))
      else if "planned_end_date" in data then DateOf(data["planned_end_date"], "planned_end_date")
      else DateOf(data["end_date"], "end_date")
    else Ok(start)
  }

  function RentalFromDict(data: Record): (r: Result<Rental, LoadError>)
    ensures "id" !in data ==> r == Err(MissingField("id"))
    ensures r.Ok? ==> && {"id", "device_id", "customer_id", "start_date"} <= data.Keys
                      && JStr(r.value.id) == data["id"]
                      && JStr(r.value.deviceId) == data["device_id"]
                      && JStr(r.value.customerId) == data["customer_id"]
                      && DateOf(data["start_date"], "start_date") == Ok(r.value.startDate)
  {
    var id :- Text(data, "id");
    var deviceId :- Text(data, "device_id");
    var customerId :- Text(data, "customer_id");
    var startDate :-
      if "start_date" in data then DateOf(data["start_date"], "start_date")
      else Err(MissingField("start_date"));
    var plannedEndDate :- PlannedEndOf(data, startDate);
    var endDate :-
      if Truthy(data, "end_date") then
        var e :- DateOf(data["end_date"], "end_date");
        Ok(Some(e))
      else Ok(None);
    var status :- TextOr(data, "status", Active);
    var notes :- TextOr(data, "notes", "");
    // float(data["total_cost"]) if data.get("total_cost") is not None else None
    var totalCost :-
      if "total_cost" !in data || data["total_cost"] == JNull then Ok(None)
      else if data["total_cost"].JNum? then Ok(Some(data["total_cost"].num))
      else Err(WrongType("total_cost"));
    var address :- TextOr(data, "address", "");
    Ok(Rental(id, deviceId, customerId, startDate, plannedEndDate, endDate, status, notes, totalCost, address))
  }

  lemma RentalRoundTrip(r: Rental)
    ensures RentalFromDict(RentalToDict(r)) == Ok(r)
  {
    ParseFormatDate(r.startDate);
    ParseFormatDate(r.plannedEndDate);
    if r.endDate.Some? {
      ParseFormatDate(r.endDate.value);
    }
  }

  /** The three ways a successfully loaded rental gets its planned end. */
  lemma RentalPlannedEnd(data: Record)
    requires RentalFromDict(data).Ok?
    ensures var r := RentalFromDict(data).value;
      && (Truthy(data, "planned_end_date") ==>
            DateOf(data["planned_end_date"], "planned_end_date") == Ok(r.plannedEndDate))
      && (!Truthy(data, "planned_end_date") && Truthy(data, "end_date") ==>
            "planned_end_date" !in data && r.endDate == Some(r.plannedEndDate))
      && (!Truthy(data, "planned_end_date") && !Truthy(data, "end_date") ==>
            r.plannedEndDate == r.startDate)
  {
  }

  lemma RentalDefaults(data: Record)
    requires RentalFromDict(data).Ok?
    ensures var r := RentalFromDict(data).value;
      && (!Truthy(data, "end_date") ==> r.endDate == None)
      && ("status" !in data ==> r.status == Active)
      && ("notes" !in data ==> r.notes == "")
      && ("address" !in data ==> r.address == "")
      && ("total_cost" !in data || data["total_cost"] == JNull ==> r.totalCost == None)
  {
  }

  /** A record with a truthy `planned_end_date` but no `end_date` key does
      not load, and neither does one whose `planned_end_date` is present but
      empty or null while its `end_date` is set. */
  lemma RentalPlannedEndFailures(data: Record)
    requires "id" in data && data["id"].JStr?
    requires "device_id" in data && data["device_id"].JStr?
    requires "customer_id" in data && data["customer_id"].JStr?
    requires "start_date" in data && DateOf(data["start_date"], "start_date").Ok?
    ensures Truthy(data, "planned_end_date") && "end_date" !in data ==>
              RentalFromDict(data) == Err(MissingField("end_date"))
    ensures "planned_end_date" in data && !Truthy(data, "planned_end_date") && Truthy(data, "end_date") ==>
              RentalFromDict(data) == Err(BadDate("planned_end_date"))
  {
  }
}
