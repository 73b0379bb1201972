/**
 * A customer of the restaurant: names, a phone number and notes (both
 * normalised by their setters), a derived full name, the lookups' pure
 * parts (the search pattern, the not-found check) and `save`.
 */
module Customers {
  import opened Wrappers
  import opened JsValues
  import opened Persistence

  /** The fields of a customer: the object passed to `new Customer({...})`, a result row, or a customer's state. */
  datatype CustomerRecord = CustomerRecord(
    id: JsVal, firstName: string, lastName: string, phone: JsVal, notes: JsVal)

  /** A record whose phone and notes have been through the normalising setters. */
  predicate IsNormalised(c: CustomerRecord) {
    Normalised(c.phone) && Normalised(c.notes)
  }

  /** The state `new Customer(input)` reaches: id and names as given, phone and notes normalised. */
  function Construct(input: CustomerRecord): (c: CustomerRecord)
    ensures IsNormalised(c)
    ensures c.id == input.id && c.firstName == input.firstName && c.lastName == input.lastName
    ensures c.phone == OrEmpty(input.phone) && c.notes == OrEmpty(input.notes)
    ensures IsNormalised(input) ==> c == input
  {
    input.(phone := OrEmpty(input.phone), notes := OrEmpty(input.notes))
  }

  /** `get fullName()`: the first name, one space, the last name. */
  function FullName(firstName: string, lastName: string): (r: string)
    ensures |r| == |firstName| + 1 + |lastName|
    ensures r[..|firstName|] == firstName
    ensures r[|firstName|] == ' '
    ensures r[|firstName| + 1..] == lastName
  {
    firstName + " " + lastName
  }

  /** Splits a string at its first space: what precedes it and what follows it. */
  function SplitAtSpace(s: string): (r: (string, string))
    ensures ' ' !in r.0
    ensures ' ' in s ==> s == r.0 + " " + r.1
    ensures ' ' !in s ==> r == (s, "")
  {
    if s == [] then ("", "")
    else if s[0] == ' ' then ("", s[1..])
    else
      var t := SplitAtSpace(s[1..]);
      assert s == [s[0]] + s[1..];
      ([s[0]] + t.0, t.1)
  }

  /** A full name gives its two parts back whenever the first name has no space in it. */
  lemma {:induction false} FullNameSplits(firstName: string, lastName: string)
    requires ' ' !in firstName
    ensures SplitAtSpace(FullName(firstName, lastName)) == (firstName, lastName)
  {
    if firstName != [] {
      var full := FullName(firstName, lastName);
      assert full[0] == firstName[0] != ' ';
      assert full[1..] == FullName(firstName[1..], lastName);
      FullNameSplits(firstName[1..], lastName);
      assert firstName == [firstName[0]] + firstName[1..];
    }
  }

  /** The parameter `search(q)` passes to `last_name ILIKE $1`: `%${q}%`. */
  function SearchPattern(q: JsVal): (p: string)
    requires !q.DateV?
    ensures |p| >= 2 && p[0] == '%' && p[|p| - 1] == '%'
    ensures p[1..|p| - 1] == Text(q)
    ensures q == Str("") ==> p == "%%"
    ensures q == Undefined ==> p == "%undefined%"
  {
    "%" + Text(q) + "%"
  }

  /** The error `get(id)` throws when no row matches. */
  function NotFound(id: JsVal): (e: Error)
    requires !id.DateV?
    ensures e.status == Some(404)
    ensures |e.message| >= 18 && e.message[..18] == "No such customer: " && e.message[18..] == Text(id)
  {
    Error("No such customer: " + Text(id), Some(404))
  }

  /** `get(id)` given the rows the store returned for it: the first row as a customer, or a 404 error. */
  function Get(id: JsVal, rows: seq<CustomerRecord>): (r: Result<CustomerRecord, Error>)
    requires !id.DateV?
    ensures r.Failure? <==> rows == []
    ensures r.Failure? ==> r.error == NotFound(id) && r.error.status == Some(404)
    ensures r.Success? ==> IsNormalised(r.value) && r.value.id == rows[0].id
    ensures r.Success? ==> r.value == Construct(rows[0])
  {
    if rows == [] then Failure(NotFound(id)) else Success(Construct(rows[0]))
  }

  /**
   * The columns `save` sends as the source writes it: first_name, last_name,
   * `this.phone`, notes. The class has a `phone` setter and no getter, so
   * `this.phone` reads as undefined whatever the customer's phone is.
   */
  function SaveValuesAsWritten(c: CustomerRecord): (v: seq<JsVal>)
    ensures |v| == 4 && v[2] == Undefined
    ensures v[..2] == [Str(c.firstName), Str(c.lastName)] && v[3] == c.notes
  {
    [Str(c.firstName), Str(c.lastName), Undefined, c.notes]
  }

  /** The columns `save` is meant to send: first_name, last_name, the stored phone, notes. */
  function SaveValues(c: CustomerRecord): (v: seq<JsVal>)
    ensures |v| == 4 && v[2] == c.phone
    ensures v[..2] == [Str(c.firstName), Str(c.lastName)] && v[3] == c.notes
  {
    [Str(c.firstName), Str(c.lastName), c.phone, c.notes]
  }

  /**
   * The row the store keeps for a customer inserted with `values` under id
   * `newId`, as a later `get` reads it back.
   */
  function StoredRow(newId: int, values: seq<JsVal>): (row: CustomerRecord)
    requires |values| == 4 && values[0].Str? && values[1].Str?
    ensures row.id == Num(newId) && row.phone == values[2] && row.notes == values[3]
  {
    CustomerRecord(Num(newId), values[0].s, values[1].s, values[2], values[3])
  }

  /** Saving a new customer and getting it back by the returned id yields the same customer. */
  lemma SaveThenGet(c: CustomerRecord, newId: int)
    requires IsNormalised(c) && IsTransient(c.id)
    ensures var s := SaveStep(CustomersTable, c.id, SaveValues(c), newId);
      && s.query.Insert?
      && Get(s.id, [StoredRow(newId, s.query.values)]) == Success(c.(id := s.id))
  {
  }

  /** As written, a saved customer comes back from `get` with an empty phone, whatever phone it had. */
  lemma SaveLosesPhoneAsWritten(c: CustomerRecord, newId: int)
    requires IsTransient(c.id)
    ensures var s := SaveStep(CustomersTable, c.id, SaveValuesAsWritten(c), newId);
      && Get(s.id, [StoredRow(newId, s.query.values)]).value.phone == Str("")
  {
  }

  /** The customer Jane Doe, phone 555-1234: saved as written, her phone does not come back. */
  lemma JanePhoneLostAsWritten()
    ensures var jane := CustomerRecord(Undefined, "Jane", "Doe", Str("555-1234"), Str(""));
      var s := SaveStep(CustomersTable, jane.id, SaveValuesAsWritten(jane), 1);
      && Get(s.id, [StoredRow(1, s.query.values)]) != Success(jane.(id := Num(1)))
  {
  }

  class Customer {
    var id: JsVal
    var firstName: string
    var lastName: string
    var phone: JsVal   // _phone
    var notes: JsVal   // _notes

    ghost predicate Valid()
      reads this
    {
      IsNormalised(Record())
    }

    /** The customer's fields as a value. */
    function Record(): CustomerRecord
      reads this
    {
      CustomerRecord(id, firstName, lastName, phone, notes)
    }

    /** `new Customer(input)`: id and names assigned directly, phone and notes through their setters. */
    constructor (input: CustomerRecord)
      ensures Valid()
      ensures Record() == Construct(input)
    {
      id := input.id;
      firstName := input.firstName;
      lastName := input.lastName;
      phone := Str("");
      notes := Str("");
      new;
      SetPhone(input.phone);
      SetNotes(input.notes);
    }

    /** `set phone(val)`: `val || ""`. */
    method SetPhone(val: JsVal)
      modifies this`phone
      ensures phone == OrEmpty(val)
      ensures old(Normalised(notes)) ==> Valid()
    {
      phone := OrEmpty(val);
    }

    /** `set notes(val)`: `val || ""`. */
    method SetNotes(val: JsVal)
      modifies this`notes
      ensures notes == OrEmpty(val)
      ensures old(Normalised(phone)) ==> Valid()
    {
      notes := OrEmpty(val);
    }

    /**
     * `save()`: with no id, inserts the columns and takes the id the store
     * returns; with an id, updates the row with that id. Only `id` can change.
     * The phone sent is the stored one (see SaveValuesAsWritten for the source's).
     */
    method Save(returnedId: int) returns (q: Query)
      requires Valid()
      modifies this`id
      ensures Valid()
      ensures Saved(q, id) == SaveStep(CustomersTable, old(id), SaveValues(Record()), returnedId)
      ensures old(id) == Undefined ==> q.Params() == [Str(firstName), Str(lastName), phone, notes]
      ensures old(id) != Undefined ==> q.Params() == [Str(firstName), Str(lastName), phone, notes, id]
    {
      var values := SaveValues(Record());
      if id == Undefined {
        q := Insert(CustomersTable, values);
        id := Num(returnedId);
      } else {
        q := Update(CustomersTable, values, id);
      }
    }
  }
}
