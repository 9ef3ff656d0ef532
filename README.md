# Device rental manager — a Dafny model

A model of the core of a small command-line tool that rents out camera
equipment. It keeps devices, customers and rental orders. It rents a device
to a customer, takes it back and bills the inclusive number of days at the
device's daily rate, and lists the records. It also lays them out as text
tables.

Modules:

- `Models` (`models.dfy`) covers `rental_manager/models.py`. It holds the
  `Device`, `Customer` and `Rental` records and their `to_dict`/`from_dict`
  conversions. A stored dictionary is a `map` from field name to a small JSON
  value: text, number or null.
- `Manager` (`manager.dfy`) covers `rental_manager/manager.py`. Each operation
  of `RentalManager` is first a function on a `Store` value. The three
  dictionaries are `map`s keyed by id. The class `Manager.RentalManager` then
  performs the same steps in place on its three map fields, and each method
  is proved to reach exactly the state the function describes. The listing
  queries are functions.
- `Table` (`table.dfy`) covers `print_table` in `rental_manager/cli.py`. It
  returns the lines instead of printing them. The width computation is an
  in-place nested loop over an array.
- `Results` holds shared Option and Result types. `Sorting` holds Python's
  comprehension filter, the stable `sorted` and Python's `str` order.

Representation choices:

- A date is its day number, so `(end - start).days + 1` is plain
  subtraction.
- The `%Y-%m-%d` text form is abstracted as the decimal digits of the day
  number. The code relies on only three facts about it: parsing a formatted
  date gives the date back (`Models.ParseFormatDate`), the text of a date is
  never empty, and empty text does not parse as a date.
- Money (`daily_rate`, `total_cost`) is a whole number of cents. This makes
  the two-decimal `round` of the source exact. A JSON number in a stored
  record is read as cents.
- An id that the source draws from `uuid4` is a parameter. The caller must
  supply one that is not already in the map.
- A listing's `status` argument is a string. The empty string stands for
  both `None` and `""`, because Python's `if status:` treats them alike.

The model follows the code as it stands. The code has no availability engine, no scheduling, no prompt
parser and no calendar. `rent_device` checks only that the device's status is
exactly `"available"`. `return_device` sets the device back to `"available"`
even when it was `"maintenance"`. There is no derived status refresh.

`rent_device` constructs its `Rental` without the required
`planned_end_date`. As written, every call that passes the guards therefore
raises. The model keeps the field and sets it to the start date. This is the
same fallback `Rental.from_dict` uses for a record without one. The
discrepancy is recorded under "Findings".

## Model

| member | source | states |
|---|---|---|
| `Models.FormatDate` | rental_manager/models.py:15-16 | the text form of a date is never empty, so it is always truthy |
| `Models.ParseDate` | rental_manager/models.py:11-12 | parsing succeeds exactly on well-formed date text |
| `Models.ParseFormatDate` | rental_manager/models.py:11-16 | parsing the formatted date gives back the same date |
| `Models.DeviceToDict` | rental_manager/models.py:27-34 | the stored form has exactly the fields id, name, category, daily_rate, status |
| `Models.DeviceFromDict` | rental_manager/models.py:36-44 | a record without `id` fails with a missing-field error, as does one without `name`; on success id and name are the stored texts |
| `Models.DeviceRoundTrip` | rental_manager/models.py:27-44 | loading a saved device reproduces every field |
| `Models.DeviceDefaults` | rental_manager/models.py:41-43 | a missing category loads as "unknown", a missing rate as 0, a missing status as "available" |
| `Models.CustomerToDict` | rental_manager/models.py:54-60 | the stored form has exactly the fields id, name, phone, email |
| `Models.CustomerFromDict` | rental_manager/models.py:62-69 | id and name are required; on success they are the stored texts |
| `Models.CustomerRoundTrip` | rental_manager/models.py:54-69 | loading a saved customer reproduces every field |
| `Models.CustomerDefaults` | rental_manager/models.py:67-68 | a missing phone or email loads as "" |
| `Models.RentalToDict` | rental_manager/models.py:85-97 | the stored form always has all ten fields; end_date is null exactly when there is no return date, and total_cost is null exactly when there is no cost |
| `Models.PlannedEndOf` | rental_manager/models.py:106-108 | with neither planned_end_date nor end_date truthy the planned end is the start; with either truthy but no end_date key it fails on that key; otherwise it is the parsed planned_end_date when that is truthy, else the parsed end_date, and then no planned_end_date key is present |
| `Models.RentalFromDict` | rental_manager/models.py:99-114 | id is required; on success id, device_id and customer_id are the stored texts and start_date is the parsed stored start |
| `Models.RentalRoundTrip` | rental_manager/models.py:85-114 | loading a saved rental reproduces it, including a missing return date and a missing cost |
| `Models.RentalPlannedEnd` | rental_manager/models.py:106-108 | the planned end is the stored planned end when that is truthy; otherwise the stored end_date (and then no planned_end_date key was present); otherwise the start date |
| `Models.RentalDefaults` | rental_manager/models.py:109-113 | a falsy end_date loads as no return date; missing status, notes and address load as "active", "", ""; a missing or null total_cost loads as no cost |
| `Models.RentalPlannedEndFailures` | rental_manager/models.py:106-107 | a truthy planned_end_date without an end_date key fails on the missing end_date; a present but falsy planned_end_date next to a truthy end_date fails to parse |
| `Manager.Store.AddDevice` | rental_manager/manager.py:39-49 | the new device is "available" and stored under the fresh id; customers, rentals and the other devices are unchanged |
| `Manager.Store.AddCustomer` | rental_manager/manager.py:51-56 | the new customer is stored under the fresh id; nothing else changes |
| `Manager.Store.Rent` | rental_manager/manager.py:67-94 | renting succeeds exactly when the device and customer exist, the device is "available" and the start parses; a failure changes nothing; a success adds one active rental under the fresh id and marks the device "rented" (the full frame is in `Manager.RentRejects` and `Manager.RentEffect`) |
| `Manager.Store.Return` | rental_manager/manager.py:96-117 | a failure other than the unknown-device lookup changes nothing; a success closes an active rental with a return date not before its start, keeps the same rental and device keys and makes its device "available" (cost and frame in `Manager.ReturnEffect` and `Manager.ReturnCost`) |
| `Manager.Store.RentAsWritten` | rental_manager/manager.py:67-90 | as written, renting never succeeds and never changes the store |
| `Manager.RentAsWrittenFails` | rental_manager/manager.py:84-90 | every call that passes the guards ends in the error from the missing planned_end_date, where the corrected operation succeeds |
| `Manager.RentRejects` | rental_manager/manager.py:75-81 | renting fails with nothing changed when the device or the customer is unknown, when the device's status is anything but "available" (so "rented" and "maintenance" both), or when the start date does not parse |
| `Manager.RentEffect` | rental_manager/manager.py:83-94 | on success exactly one rental is added under the fresh id: active, with no return date and no cost, with the given notes and the parsed start; that device becomes "rented"; no other device, customer or rental changes |
| `Manager.ReturnRejects` | rental_manager/manager.py:96-105 | returning fails with nothing changed when the rental is unknown, when it is not active, when the date does not parse, or when the date is before the start |
| `Manager.ReturnEffect` | rental_manager/manager.py:107-117 | on success the rental gets the return date, status "closed" and cost (end - start + 1) x rate; its device becomes "available" whatever its status was; no other device, customer or rental changes |
| `Manager.ReturnCost` | rental_manager/manager.py:109-111 | at least one day is billed, the cost is days x rate, and a non-negative rate gives a non-negative cost |
| `Manager.ReturnTwiceFails` | rental_manager/manager.py:100-108 | once a rental has been returned, returning it again fails with nothing changed |
| `Manager.ConsistentReturnFindsDevice` | rental_manager/manager.py:110-113 | in a consistent store the rented device is always found when a rental is returned |
| `Manager.EmptyConsistent` | rental_manager/storage.py:8-12 | the empty data file gives a consistent store |
| `Manager.AddDeviceConsistent` | rental_manager/manager.py:39-49 | adding a device keeps the store consistent |
| `Manager.AddCustomerConsistent` | rental_manager/manager.py:51-56 | adding a customer keeps the store consistent |
| `Manager.RentConsistent` | rental_manager/manager.py:79-92 | renting keeps each device to at most one active rental and keeps every device with an active rental "rented" |
| `Manager.ReturnConsistent` | rental_manager/manager.py:100-114 | returning keeps that invariant, and every closed rental has a return date not before its start and a cost |
| `Manager.ListDevices` | rental_manager/manager.py:58-62 | the result is sorted by name and holds each device exactly as often as the input does when the status filter is empty or matches, and never otherwise |
| `Manager.ListCustomers` | rental_manager/manager.py:64-65 | the result is sorted by name and is a permutation of the customers |
| `Manager.ListRentals` | rental_manager/manager.py:119-123 | the result is sorted latest start first and holds exactly the rentals the status filter keeps |
| `Manager.ValuesIn` | rental_manager/manager.py:59 | `values()` in insertion order holds every value of the dictionary and nothing else |
| `Manager.DeviceListing` | rental_manager/manager.py:58-62 | listing a store's devices yields every device the status filter keeps, and only such devices, sorted by name |
| `Manager.CustomerListing` | rental_manager/manager.py:64-65 | listing a store's customers yields every customer and only those, sorted by name |
| `Manager.RentalListing` | rental_manager/manager.py:119-123 | listing a store's rentals yields every rental the status filter keeps, and only such rentals, the latest start first |
| `Manager.RentalManager.constructor` | rental_manager/manager.py:15-29 | a manager over an empty data file starts with three empty maps and is consistent |
| `Manager.RentalManager.AddDevice` | rental_manager/manager.py:39-49 | the in-place insert reaches the state of `Store.AddDevice` and keeps the invariant |
| `Manager.RentalManager.AddCustomer` | rental_manager/manager.py:51-56 | the in-place insert reaches the state of `Store.AddCustomer` and keeps the invariant |
| `Manager.RentalManager.RentDevice` | rental_manager/manager.py:67-94 | the in-place guards and updates return the result and reach the state of `Store.Rent`, and keep the invariant |
| `Manager.RentalManager.ReturnDevice` | rental_manager/manager.py:96-117 | the in-place updates return the result and reach the state of `Store.Return`, including a rental left closed, with its cost unchanged (none is computed), when its device is unknown; the invariant is kept |
| `Table.PadRight` | rental_manager/cli.py:241 | `ljust` keeps the text, pads with spaces only, and gives the larger of the text length and the width |
| `Table.Widths` | rental_manager/cli.py:235-238 | there is one width per header |
| `Table.WidthsAreColumnMaxima` | rental_manager/cli.py:235-238 | each width is the largest of the header's length and the lengths of the cells in that column: at least each of them, and equal to one of them |
| `Table.ColumnWidths` | rental_manager/cli.py:235-238 | the nested loop over the width array computes exactly those column maxima |
| `Table.FormatRow` | rental_manager/cli.py:240-241 | a formatted line is as long as its cells, each the larger of its text and its column width, plus three characters for each " | " between them; an empty row gives an empty line |
| `Table.Divider` | rental_manager/cli.py:243 | the divider is as long as the sum of the widths plus three characters for each "-+-" between columns |
| `Table.CellsFillColumns` | rental_manager/cli.py:240-241 | every header or row cell becomes its text followed by spaces to exactly its column's width, never truncated |
| `Table.FullRowMatchesDivider` | rental_manager/cli.py:240-243 | a line with a cell in every column is exactly as long as the divider |
| `Table.PrintTable` | rental_manager/cli.py:234-247 | the output is the header line, the divider, then one line per row in input order (2 + number of rows lines); the header line, the divider and every full row have the same length |

## Findings

| source | as written | input that shows it | evidently intended | confidence | as-written member | corrected member |
|---|---|---|---|---|---|---|
| rental_manager/manager.py:84-90 | `Rental(...)` is called without `planned_end_date`, a field with no default (models.py:78), so the call raises before anything changes | any call that passes the guards: a known customer, a device whose status is "available" and a well-formed start date | the rental is created and the device marked "rented"; here the planned end is the start date, the fallback of models.py:106-108 | high; not executed | `Manager.Store.RentAsWritten`, `Manager.RentAsWrittenFails` | `Manager.Store.Rent`, `Manager.RentEffect` |

## Left out

- Persistence is not modelled. This covers `JsonStorage.load`/`save`, `_persist` after each change, and the loading in `__init__`, `_load_objects` and `initialize`. The constructor starts from an empty data file.
- `seed_sample` is not modelled: it reads the clock and sets a device status directly.
- `to_rows` and the `print_*` wrappers are not modelled: they are display formatting with `:.2f`.
- `main` and `build_parser` are not modelled: they are argument parsing and output. The calls they make to `auto_schedule`, `parse_ai_prompt`, `calendar_matrix` and to `rent_device` with an end date, a day count and an address have no counterpart in the `RentalManager` of this code.
- `uuid4` is not modelled: the caller passes a fresh id.
- Float arithmetic and rounding are not modelled: amounts are exact cents.
- The details of `strptime`/`strftime` are not modelled, including their lenient parsing. Dates are day numbers with an abstract text form.
- Aliasing is not modelled. The source returns the very `Device` and `Rental` objects stored in its dictionaries, and later changes show through them. The model returns values.
- Dictionary insertion order is not part of the class state. The listing functions take the order in which the keys were inserted as an argument (`Manager.DeviceListing` and its siblings) or the values in that order as a sequence. Sortedness and the exact contents are proved. That ties keep their input order (stability) is not proved.
- Models.DeviceFromDict: a non-text value in a text field, such as a null category, is rejected as a type error. Python would store it. `float()` of a numeric text in `daily_rate` is rejected as well.
- Models.CustomerFromDict: a non-text value in a text field is rejected. Python would store it.
- Models.RentalFromDict: a non-text value in a text field, such as a null notes field, is rejected. Python would store `None`. `float()` of a numeric text in `total_cost` is rejected as well. JSON booleans, lists and objects are not represented.
