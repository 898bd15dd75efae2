/**
 * Column types shared by the tables of the catalog: identifiers, dates, the opaque
 * duration of a route, and the length and fixed-point bounds of the columns.
 */
module Fields {

  /** Primary keys. UUIDs and auto-increment integers are both modelled as naturals. */
  type StateId = nat
  type MunicipalityId = nat
  type CategoryId = nat
  type PlaceId = nat
  type RouteId = nat
  type LinkId = nat
  type FavoriteId = nat
  type VisitId = nat
  type UserId = nat

  /** A calendar date, as a day number. */
  type Date = nat

  /** The value of a `TimeField`; the model does not interpret it. */
  type Duration = nat

  function Pow10(n: nat): (r: int)
    ensures r >= 1
  {
    if n == 0 then 1 else 10 * Pow10(n - 1)
  }

  /** A `CharField(max_length)` accepts a text of at most that many characters. */
  predicate FitsMaxLength(s: string, maxLength: nat)
  {
    |s| <= maxLength
  }

  /**
   * A decimal with a fixed number of decimal places is held as the integer count of its
   * smallest unit (`units / 10^places`). A `DecimalField(max_digits)` then accepts it
   * exactly when that integer has at most `maxDigits` digits.
   */
  predicate FitsDecimal(units: int, maxDigits: nat)
  {
    -Pow10(maxDigits) < units < Pow10(maxDigits)
  }

  /** The digit bound leaves `maxDigits - places` digits before the decimal point. */
  lemma {:induction false} FitsDecimalWholeDigits(units: int, maxDigits: nat, places: nat)
    requires places <= maxDigits
    ensures FitsDecimal(units, maxDigits) <==>
              -Pow10(maxDigits - places) * Pow10(places) < units < Pow10(maxDigits - places) * Pow10(places)
  {
    Pow10Add(maxDigits - places, places);
  }

  lemma {:induction false} Pow10Add(a: nat, b: nat)
    ensures Pow10(a + b) == Pow10(a) * Pow10(b)
  {
    if a > 0 {
      Pow10Add(a - 1, b);
      assert Pow10(a + b) == 10 * Pow10(a - 1 + b);
    }
  }
}
