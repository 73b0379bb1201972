/**
 * A reservation for a party. Its setters validate the guest count and the
 * start time and normalise the notes; `save` inserts or updates by id.
 */
module Reservations {
  import opened Wrappers
  import opened JsValues
  import opened Persistence

  const GuestsError := Error("Number of guests must be at least 1", None)
  const DateError := Error("A valid date must be provided", None)

  /** The guest-count check of the `numGuests` setter. */
  function CheckGuests(guests: int): (o: Outcome<Error>)
    ensures o.Pass? <==> guests >= 1
    ensures o.Fail? ==> o.error == GuestsError
  {
    if guests < 1 then Fail(GuestsError) else Pass
  }

  /** The `instanceof Date` check of the `startAt` setter: the date to store, or the error to throw. */
  function CheckStartAt(v: JsVal): (r: Result<JsDate, Error>)
    ensures r.Success? <==> v.DateV?
    ensures r.Success? ==> DateV(r.value) == v
    ensures r.Failure? ==> r.error == DateError
  {
    if v.DateV? then Success(v.date) else Failure(DateError)
  }

  /** The object passed to `new Reservation({...})`. */
  datatype ReservationInput = ReservationInput(
    id: JsVal, customerId: JsVal, numGuests: int, startAt: JsVal, notes: JsVal)

  class Reservation {
    var id: JsVal
    var customerId: JsVal
    var numGuests: int    // _numGuests
    var startAt: JsDate   // _startAt
    var notes: JsVal      // _notes

    /** What the setters guarantee of every reservation that exists. */
    ghost predicate Valid()
      reads this
    {
      numGuests >= 1 && Normalised(notes)
    }

    /** The columns `save` sends, in the order customer_id, start_at, num_guests, notes. */
    function Values(): (v: seq<JsVal>)
      reads this
      ensures |v| == 4
      ensures v[0] == customerId && v[1] == DateV(startAt) && v[2] == Num(numGuests) && v[3] == notes
    {
      [customerId, DateV(startAt), Num(numGuests), notes]
    }

    /** The state a constructor call reaches once all three setters have accepted their input. */
    constructor Init(id: JsVal, customerId: JsVal, numGuests: int, startAt: JsDate, notes: JsVal)
      requires numGuests >= 1
      ensures Valid()
      ensures this.id == id && this.customerId == customerId
      ensures this.numGuests == numGuests && this.startAt == startAt && this.notes == OrEmpty(notes)
    {
      this.id := id;
      this.customerId := customerId;
      this.numGuests := numGuests;
      this.startAt := startAt;
      this.notes := OrEmpty(notes);
    }

    /**
     * `new Reservation(input)`: assigns id and customerId, then runs the
     * numGuests, startAt and notes setters in that order; the first setter
     * that throws aborts construction with its error.
     */
    static method Create(input: ReservationInput) returns (r: Result<Reservation, Error>)
      ensures r.Failure? <==> input.numGuests < 1 || !input.startAt.DateV?
      ensures r.Failure? ==> r.error == (if input.numGuests < 1 then GuestsError else DateError)
      ensures r.Success? ==> fresh(r.value) && r.value.Valid()
      ensures r.Success? ==> r.value.id == input.id && r.value.customerId == input.customerId
      ensures r.Success? ==> r.value.numGuests == input.numGuests
      ensures r.Success? ==> DateV(r.value.startAt) == input.startAt
      ensures r.Success? ==> r.value.notes == OrEmpty(input.notes)
    {
      var guests := CheckGuests(input.numGuests);
      if guests.Fail? {
        return Failure(guests.error);
      }
      var start := CheckStartAt(input.startAt);
      if start.Failure? {
        return Failure(start.error);
      }
      var res := new Reservation.Init(input.id, input.customerId, input.numGuests, start.value, input.notes);
      return Success(res);
    }

    /** `set numGuests(guests)`: throws below 1 and then leaves the count as it was. */
    method SetNumGuests(guests: int) returns (o: Outcome<Error>)
      requires Valid()
      modifies this`numGuests
      ensures Valid()
      ensures o == CheckGuests(guests)
      ensures numGuests == (if guests >= 1 then guests else old(numGuests))
    {
      o := CheckGuests(guests);
      if o.Pass? {
        numGuests := guests;
      }
    }

    /** `set startAt(date)`: stores a Date object unchanged, throws for anything else. */
    method SetStartAt(date: JsVal) returns (o: Outcome<Error>)
      requires Valid()
      modifies this`startAt
      ensures Valid()
      ensures o.Pass? <==> date.DateV?
      ensures o.Pass? ==> DateV(startAt) == date
      ensures o.Fail? ==> o.error == DateError && startAt == old(startAt)
    {
      var r := CheckStartAt(date);
      if r.Success? {
        startAt := r.value;
        o := Pass;
      } else {
        o := Fail(r.error);
      }
    }

    /** `set notes(val)`: `val || ""`. */
    method SetNotes(val: JsVal)
      requires Valid()
      modifies this`notes
      ensures Valid()
      ensures notes == OrEmpty(val)
    {
      notes := OrEmpty(val);
    }

    /**
     * `save()`: with no id, inserts the columns and takes the id the store
     * returns; with an id, updates the row with that id. Only `id` can change.
     */
    method Save(returnedId: int) returns (q: Query)
      requires Valid()
      modifies this`id
      ensures Valid()
      ensures Saved(q, id) == SaveStep(ReservationsTable, old(id), Values(), returnedId)
      ensures old(id) == Undefined ==> q.Params() == [customerId, DateV(startAt), Num(numGuests), notes]
      ensures old(id) != Undefined ==> q.Params() == [customerId, DateV(startAt), Num(numGuests), notes, id]
    {
      if id == Undefined {
        q := Insert(ReservationsTable, Values());
        id := Num(returnedId);
      } else {
        q := Update(ReservationsTable, Values(), id);
      }
    }
  }

  /**
   * A reservation made, saved, changed from two guests to four and saved
   * again: the second save is an update keyed on the id the first one got.
   */
  method ChangeGuestsAfterInsert(customerId: int, start: int, firstId: int, secondId: int)
    returns (first: Query, second: Query)
    ensures first == Insert(ReservationsTable, [Num(customerId), DateV(ValidDate(start)), Num(2), Str("")])
    ensures second == Update(ReservationsTable, [Num(customerId), DateV(ValidDate(start)), Num(4), Str("")], Num(firstId))
  {
    var made := Reservation.Create(ReservationInput(Undefined, Num(customerId), 2, DateV(ValidDate(start)), Null));
    var r := made.value;
    first := r.Save(firstId);
    var o := r.SetNumGuests(4);
    assert o == Pass;
    second := r.Save(secondId);
  }
}
