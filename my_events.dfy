/**
 * The event list (pages/MyEvents.tsx): the empty state, and per event the
 * rounded utilisation and the red warning colour.
 */
module MyEvents {
  import opened Types
  import opened Dashboard

  /** `Math.round`: halves round up, towards positive infinity. */
  function Round(x: real): (n: int)
    ensures n as real - 0.5 <= x < n as real + 0.5
  {
    (x + 0.5).Floor
  }

  /** The percentage printed on a card: the utilisation rounded to the nearest whole number. */
  function ShownPercent(spent: real, budget: real): (n: int)
    requires budget > 0.0
    ensures n <= 100
    ensures spent >= 0.0 ==> n >= 0
    ensures n == 100 <== spent >= budget
    ensures spent < budget ==> (n as real - 0.5) * budget <= spent * 100.0
    ensures spent < budget ==> spent * 100.0 < (n as real + 0.5) * budget
  {
    var p := Utilisation(spent, budget);
    var m := Round(p);
    if spent < budget then
      ScaleBounds(m as real - 0.5, p, m as real + 0.5, budget, spent * 100.0);
      m
    else
      m
  }

  /** The bar turns red above 90 per cent. */
  predicate IsRed(spent: real, budget: real)
    requires budget > 0.0
  {
    Utilisation(spent, budget) > 90.0
  }

  /** Red means more than nine tenths of the budget is spent. */
  lemma RedIffNineTenthsSpent(spent: real, budget: real)
    requires budget > 0.0
    ensures IsRed(spent, budget) <==> spent * 10.0 > budget * 9.0
  {
    var p := Utilisation(spent, budget);
    if spent < budget {
      ShareAboveNinety(p, budget, spent);
    }
  }

  /** For p = 100 * spent / budget, p exceeds 90 exactly when spent exceeds nine tenths of budget. */
  lemma ShareAboveNinety(p: real, budget: real, spent: real)
    requires budget > 0.0 && p * budget == spent * 100.0
    ensures p > 90.0 <==> spent * 10.0 > budget * 9.0
  {
    assert (p - 90.0) * budget == spent * 100.0 - 90.0 * budget;
    if p > 90.0 {
      PositiveProduct(p - 90.0, budget);
    } else if p < 90.0 {
      PositiveProduct(90.0 - p, budget);
    }
  }

  /** Multiplying `lo <= p < hi` by a positive factor keeps both bounds. */
  lemma ScaleBounds(lo: real, p: real, hi: real, k: real, pk: real)
    requires lo <= p < hi && k > 0.0 && pk == p * k
    ensures lo * k <= pk && pk < hi * k
  {
    PositiveProduct(hi - p, k);
    if lo < p {
      PositiveProduct(p - lo, k);
    }
  }

  lemma PositiveProduct(a: real, b: real)
    requires a > 0.0 && b > 0.0
    ensures a * b > 0.0
  {
  }

  /** `events.length === 0` shows the empty state. */
  predicate ShowsEmptyState(events: seq<Event>) {
    |events| == 0
  }

  /** Once an event has been added, the list is never empty. */
  lemma AddedEventEndsEmptyState(e: Event, events: seq<Event>)
    ensures !ShowsEmptyState([e] + events)
    ensures ShowsEmptyState(events) ==> [e] + events == [e]
  {
  }
}
