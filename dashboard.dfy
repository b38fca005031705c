/**
 * The dashboard (pages/Dashboard.tsx): budget totals over all events, the
 * per-event utilisation bar and the calendar preview. The utilisation
 * percentage is shared with the event list (pages/MyEvents.tsx).
 */
module Dashboard {
  import opened Types
  import opened Seqs

  /** The "Total Budget" tile: the budgets of all events added up. */
  function TotalBudget(events: seq<Event>): (r: real)
    ensures (forall i :: 0 <= i < |events| ==> events[i].budget >= 0.0) ==> r >= 0.0
  {
    SumOf((e: Event) => e.budget, events)
  }

  /** The "Total Spent" tile: the spend of all events added up. */
  function TotalSpent(events: seq<Event>): (r: real)
    ensures (forall i :: 0 <= i < |events| ==> events[i].spent >= 0.0) ==> r >= 0.0
  {
    SumOf((e: Event) => e.spent, events)
  }

  /** Sums split over concatenation. */
  lemma {:induction false} SumOfAppend<T>(f: T -> real, a: seq<T>, b: seq<T>)
    ensures SumOf(f, a + b) == SumOf(f, a) + SumOf(f, b)
    decreases |a|
  {
    if a != [] {
      assert (a + b)[1..] == a[1..] + b;
      SumOfAppend(f, a[1..], b);
    } else {
      assert a + b == b;
    }
  }

  /** Adding an event (which prepends it) raises the totals by exactly its budget and its spend. */
  lemma AddEventRaisesTotals(e: Event, events: seq<Event>)
    ensures TotalBudget([e] + events) == e.budget + TotalBudget(events)
    ensures TotalSpent([e] + events) == e.spent + TotalSpent(events)
  {
    SumOfAppend((x: Event) => x.budget, [e], events);
    SumOfAppend((x: Event) => x.spent, [e], events);
  }

  /** When every event spends within its budget, so does the whole. */
  lemma {:induction false} TotalsWithinBudget(events: seq<Event>)
    requires forall i :: 0 <= i < |events| ==> events[i].spent <= events[i].budget
    ensures TotalSpent(events) <= TotalBudget(events)
    decreases |events|
  {
    if events != [] {
      TotalsWithinBudget(events[1..]);
    }
  }

  /** `Math.min((spent / budget) * 100, 100)`; for a positive budget only (a zero budget gives NaN or Infinity). */
  function Utilisation(spent: real, budget: real): (p: real)
    requires budget > 0.0
    ensures p <= 100.0
    ensures p == 100.0 <==> spent >= budget
    ensures spent >= 0.0 ==> p >= 0.0
    ensures spent < budget ==> p * budget == spent * 100.0
  {
    var raw := (spent / budget) * 100.0;
    assert raw >= 100.0 <==> spent >= budget by {
      assert raw * budget == spent * 100.0;
    }
    if raw < 100.0 then raw else 100.0
  }

  /** The bar grows with the spend. */
  lemma UtilisationMonotone(s1: real, s2: real, budget: real)
    requires budget > 0.0 && s1 <= s2
    ensures Utilisation(s1, budget) <= Utilisation(s2, budget)
  {
    assert s1 / budget <= s2 / budget by {
      assert (s2 / budget - s1 / budget) * budget == s2 - s1;
    }
  }

  /** The calendar preview: `slice(0, 3)`, at most the first three entries. */
  function Preview(entries: seq<CalendarEvent>): (r: seq<CalendarEvent>)
    ensures |r| == if |entries| < 3 then |entries| else 3
    ensures forall i :: 0 <= i < |r| ==> r[i] == entries[i]
  {
    if |entries| < 3 then entries else entries[..3]
  }
}
