/**
 * The budget doughnut (components/BudgetChart.tsx): the remaining amount,
 * the two slices and the utilised percentage in the middle.
 */
module BudgetChart {
  import opened MyEvents

  /** `Math.max(0, total - spent)`. */
  function Remaining(total: real, spent: real): (r: real)
    ensures r >= 0.0
    ensures r >= total - spent
    ensures r == 0.0 || r == total - spent
  {
    if total - spent > 0.0 then total - spent else 0.0
  }

  datatype Slice = Slice(name: string, value: real)

  /** The chart data: the spent slice, then the remaining one. */
  function Slices(total: real, spent: real): (r: seq<Slice>)
    ensures |r| == 2 && r[0] == Slice("Spent", spent) && r[1].name == "Remaining"
    ensures r[1] == Slice("Remaining", Remaining(total, spent))
  {
    [Slice("Spent", spent), Slice("Remaining", Remaining(total, spent))]
  }

  /** Within budget the slices make up the total; over budget the chart is all spend. */
  lemma SlicesCoverTotal(total: real, spent: real)
    ensures 0.0 <= spent <= total ==> Slices(total, spent)[0].value + Slices(total, spent)[1].value == total
    ensures spent >= total ==> Slices(total, spent)[1].value == 0.0
  {
  }

  /** The percentage in the middle: 0 for a non-positive total, else the rounded share spent. */
  function Percentage(total: real, spent: real): (n: int)
    ensures total <= 0.0 ==> n == 0
    ensures total > 0.0 ==> n == Round((spent / total) * 100.0)
  {
    if total > 0.0 then Round((spent / total) * 100.0) else 0
  }

  /** A quarter of the budget spent reads 25; within budget the reading stays in 0..100. */
  lemma PercentageBounds(total: real, spent: real)
    ensures Percentage(1000.0, 250.0) == 25
    ensures total > 0.0 && 0.0 <= spent <= total ==> 0 <= Percentage(total, spent) <= 100
  {
    assert (250.0 / 1000.0) * 100.0 == 25.0;
    if total > 0.0 && 0.0 <= spent <= total {
      assert spent / total <= 1.0 by {
        assert (spent / total) * total == spent;
      }
    }
  }
}
