/**
 * The booking value type (package `model`): a data class of three read-only
 * fields. As a Dafny datatype it is immutable and its equality is structural,
 * which is what the store's delete operation relies on.
 */
module Model {

  /**
   * A calendar date (`java.time.LocalDate`): year, month of year, day of month.
   * The app only compares dates for equality and prints them; no calendar
   * arithmetic is modelled.
   */
  datatype Date = Date(year: int, month: nat, day: nat)

  /**
   * One guest booking. The constructor takes any name (also empty or blank)
   * and any two dates, in either order: nothing is validated here.
   */
  datatype BookingEntry = BookingEntry(arrivalDate: Date, departureDate: Date, name: string)

  /** Two entries are equal exactly when all three fields are equal. */
  lemma StructuralEquality(a: BookingEntry, b: BookingEntry)
    ensures a == b <==>
      a.arrivalDate == b.arrivalDate && a.departureDate == b.departureDate && a.name == b.name
  {
  }

  /**
   * The constructor is total: a blank name and a departure before the arrival
   * give an entry like any other, holding exactly the given fields.
   */
  lemma ConstructorAcceptsAnyFields(arrival: Date, departure: Date, name: string)
    ensures var e := BookingEntry(arrival, departure, name);
      e.arrivalDate == arrival && e.departureDate == departure && e.name == name
  {
  }
}
