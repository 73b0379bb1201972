# Lunchly entities: Customer and Reservation

A Dafny model of the in-memory logic of the two data-access classes of the
Lunchly restaurant application: `Reservation` (models/reservation.js) and
`Customer` (models/customer.js).

- `js_values.dfy` — module `Wrappers` (Option, Result, Outcome) and module
  `JsValues`: the JavaScript values the setters receive (`undefined`, `null`,
  booleans, integer numbers, strings, `Date` objects), falsiness, the
  `val || ""` normalisation both classes use, and the text a template literal
  `${v}` produces for a primitive value (for numbers: integers of magnitude
  below 10^21).
- `persistence.dfy` — module `Persistence`: the save pattern both classes
  share. An entity whose `id` is `undefined` is inserted and takes the id the
  store returns; any other id leads to an update keyed on that id. A save
  yields the query it would send (`Insert` or `Update`, with the parameter
  list). Lemmas over a whole series of saves show that the transition from
  transient to persisted happens once and is never undone.
- `reservation.dfy` — module `Reservations`: class `Reservation`, whose
  `numGuests` setter rejects counts below 1, whose `startAt` setter accepts
  only `Date` objects, whose `notes` setter normalises, and whose `Create`
  method models the throwing constructor, which runs those setters in order.
- `customer.dfy` — module `Customers`: class `Customer` with its normalising
  `phone` and `notes` setters and `save`, and the pure parts of the lookups:
  `fullName`, the `%q%` pattern of `search`, and the not-found branch of `get`.

The store (`db.query`) is not modelled. A `Save` method takes the id that an
insert's `RETURNING id` would produce as a parameter and returns the `Query`
it sends. `Get` takes the rows the store returned.

Behaviour of the code that the model keeps:
- `startAt` checks `instanceof Date` only, so an Invalid Date
  (`JsDate.InvalidDate`) is accepted and stored.
- The insert-or-update test is `id === undefined`, so a customer or
  reservation built with `id: null` takes the update branch.
- `search()` with no argument interpolates `undefined` and searches for
  `%undefined%`. It is not a match-all search.

## Model

| member | source | states |
|---|---|---|
| `JsValues.OrEmpty` | models/reservation.js:49-51 | the normalised value (falsy becomes `""`): the result is never undefined or null; it is `""` exactly when the input is falsy, and a truthy input is kept unchanged |
| `JsValues.Digits` | models/customer.js:66 | the decimal numeral of a natural number is non-empty, all digits, and has no leading zero unless the number is 0 |
| `JsValues.DigitsRoundTrip` | models/customer.js:66 | reading the numeral back as a number gives the original number |
| `JsValues.Text` | models/customer.js:46 | interpolating a string gives the string itself; an integer gives a numeral that starts with `-` exactly when it is negative |
| `Persistence.Query.Params` | models/reservation.js:83-90 | an insert passes the columns; an update passes the columns and then, as its last parameter, the key |
| `Persistence.SaveStep` | models/reservation.js:77-93 | one save inserts exactly when the id is undefined, and the id becomes the store's id; otherwise it updates keyed on the id and the id is unchanged; afterwards the entity is persisted |
| `Persistence.SaveRun` | models/reservation.js:77-93 | a series of saves sends one query per save |
| `Persistence.PersistedSavesUpdate` | models/reservation.js:86-92 | every save of a persisted entity is an update keyed on its id, and the id never changes |
| `Persistence.FirstSaveInserts` | models/reservation.js:77-93 | the first save of a transient entity inserts and fixes the id to the store's id; every later save updates by that id |
| `Persistence.AtMostOneInsert` | models/reservation.js:77-93 | a series of saves inserts exactly once if it starts transient and is non-empty, and never otherwise |
| `Reservations.CheckGuests` | models/reservation.js:23-26 | a guest count passes exactly when it is at least 1; otherwise the error is "Number of guests must be at least 1" |
| `Reservations.CheckStartAt` | models/reservation.js:37-40 | a value passes exactly when it is a Date, and the stored date is that Date; otherwise the error is "A valid date must be provided" |
| `Reservations.Reservation.Values` | models/reservation.js:83 | save sends four columns in the SQL's order: customer id, the start Date, the guest count, the notes, each equal to the stored field |
| `Reservations.Reservation.Init` | models/reservation.js:10-16 | a reservation whose setters all accepted their input holds the given fields with notes normalised, and is valid |
| `Reservations.Reservation.Create` | models/reservation.js:10-16 | construction fails exactly when the guest count is below 1 or the start is not a Date, with the guest error taking precedence; on success the guest count is at least 1, the start is the Date given and the notes are normalised |
| `Reservations.Reservation.SetNumGuests` | models/reservation.js:23-30 | a count below 1 fails and leaves the stored count unchanged; a count of 1 or more is stored exactly and read back by the getter |
| `Reservations.Reservation.SetStartAt` | models/reservation.js:37-44 | a Date is stored unchanged; any other value fails and leaves the start unchanged |
| `Reservations.Reservation.SetNotes` | models/reservation.js:49-55 | notes become the normalised value (falsy becomes `""`), so the getter never returns undefined or null |
| `Reservations.Reservation.Save` | models/reservation.js:77-93 | save is SaveStep on the reservation's columns: insert and take the store's id when the id is undefined, else update by id; only the id can change; the parameter list is the four columns, followed by the id on update |
| `Reservations.ChangeGuestsAfterInsert` | models/reservation.js:77-93 | a new reservation for 2 guests is inserted; after changing it to 4 guests, the next save is an update keyed on the first save's id |
| `Customers.Construct` | models/customer.js:9-15 | a constructed customer keeps id and names as given and has phone and notes normalised; an already normalised record is unchanged |
| `Customers.Customer.constructor` | models/customer.js:9-15 | the constructor assigns id and names directly and routes phone and notes through their setters, which yields Construct of its input |
| `Customers.FullName` | models/customer.js:16-18 | the full name is the first name, a single space, then the last name |
| `Customers.FullNameSplits` | models/customer.js:16-18 | splitting a full name at its first space gives back both names, when the first name has no space |
| `Customers.SearchPattern` | models/customer.js:46 | the search parameter starts and ends with `%` and has the interpolated query between them; `""` gives `%%` and `undefined` gives `%undefined%` |
| `Customers.NotFound` | models/customer.js:65-68 | the not-found error has status 404 and the message `No such customer: ` followed by the interpolated id |
| `Customers.Get` | models/customer.js:63-71 | get fails with the 404 error exactly when there is no first row; otherwise it returns the customer constructed from the first row |
| `Customers.SaveValuesAsWritten` | models/customer.js:120 | as written, save sends undefined in the phone column whatever the stored phone is, because the class has no phone getter |
| `Customers.SaveValues` | models/customer.js:120 | the corrected columns: first name, last name, the stored phone and the notes |
| `Customers.SaveThenGet` | models/customer.js:114-122 | with the corrected columns, saving a new customer and getting it back by the returned id yields the same customer with that id |
| `Customers.SaveLosesPhoneAsWritten` | models/customer.js:114-122 | as written, a saved customer read back by get always has an empty phone |
| `Customers.JanePhoneLostAsWritten` | models/customer.js:120 | Jane Doe with phone 555-1234, saved as written and read back, is not the customer that was saved |
| `Customers.Customer.SetPhone` | models/customer.js:87-89 | the stored phone becomes the normalised value (falsy becomes `""`) |
| `Customers.Customer.SetNotes` | models/customer.js:98-104 | the stored notes become the normalised value (falsy becomes `""`) |
| `Customers.Customer.Save` | models/customer.js:114-130 | save is SaveStep on the customer's columns: insert and take the store's id when the id is undefined, else update by id; only the id can change; the parameter list is first name, last name, stored phone, notes, followed by the id on update |

## Left out

- The store and `../db`: SQL text, `ILIKE` matching, `ORDER BY`, and storage failures. The query is not executed. The store's returned id and rows are parameters.
- `Customer.all` (models/customer.js:22-33) and `Customer.topCustomers` (models/customer.js:74-81): their logic is SQL that runs in the store. They map rows through the constructor, which `Construct` models.
- `Customer.search` beyond its parameter, and `getReservations` / `getReservationsForCustomer` (models/customer.js:108-110, models/reservation.js:63-76): these only delegate a query and map rows through the constructors.
- `getformattedStartAt` (models/reservation.js:57-59): date formatting by the `moment` library, which is not part of this model.
- `async`/`await`: each save is modelled as one atomic step.
- Getters (`numGuests`, `startAt`, `notes`): these read a field. The model reads the field directly. The duplicated `notes` getter of `Customer` is one getter here.
- Reservations.CheckGuests: the guest count is an integer. JavaScript's coercion of other values in `guests < 1` is not modelled (for example, `undefined < 1` is false, so `undefined` passes).
- Customers.SearchPattern: requires a non-Date query, because the text of a `Date` in a template literal depends on the time zone. The same applies to `Customers.NotFound`, `Customers.Get` and `JsValues.Text`.
- JsValues.Text: numbers are unbounded integers. `NaN`, fractions and `-0` are not modelled. JavaScript numbers are doubles: integers past 2^53 are not exact, and from 10^21 on `${n}` writes exponent form (`1e+21`), where `Text` writes every digit.
- Customers.Construct: first and last names are strings. A missing name (`new Customer({})`, whose `fullName` is `undefined undefined`) or a non-string name cannot be represented.
- Reservations.Reservation.Create: a constructor that throws leaves no object behind, so the model returns a `Result` and allocates only when every setter accepts. The constructor `Init` holds the post-validation state.
- Customers.Customer.Save: sends the stored phone (the corrected behaviour), not `undefined` as the source does. See Findings.
- Customers.StoredRow: assumes the store gives back the values it was given. `undefined` is stored as NULL, and both are falsy, so they normalise alike.

## Findings

| source | as written | input that shows it | evidently intended | confidence | as-written member | corrected member |
|---|---|---|---|---|---|---|
| models/customer.js:120 | `save` passes `this.phone`, which reads undefined because `phone` has a setter and no getter (models/customer.js:87-89); inserts store no phone and updates erase it | Jane Doe, phone "555-1234", saved then fetched by the returned id: phone comes back "" | pass the stored phone `_phone` | high, not executed | Customers.JanePhoneLostAsWritten | Customers.SaveThenGet |
