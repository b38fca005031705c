/**
 * The live sentiment chart (components/LiveAnalysis.tsx): ten initial
 * points labelled by minute, and a two-second tick that slides the window
 * by one point labelled "Now". The random draws are parameters in [0, 1).
 */
module LiveAnalysis {
  import opened Strings

  datatype DataPoint = DataPoint(time: string, sentiment: real, energy: real)

  /** A `Math.random()` value. */
  predicate Unit(r: real) {
    0.0 <= r < 1.0
  }

  /** A point drawn from two random values: sentiment in [60, 90), energy in [50, 90). */
  function Point(time: string, r: (real, real)): (p: DataPoint)
    requires Unit(r.0) && Unit(r.1)
    ensures 60.0 <= p.sentiment < 90.0 && 50.0 <= p.energy < 90.0
    ensures p.time == time
  {
    DataPoint(time, 60.0 + r.0 * 30.0, 50.0 + r.1 * 40.0)
  }

  predicate InRange(p: DataPoint) {
    60.0 <= p.sentiment < 90.0 && 50.0 <= p.energy < 90.0
  }

  /** generateData: ten points at minutes 0, 10, ..., 90. */
  function GenerateData(rs: seq<(real, real)>): (data: seq<DataPoint>)
    requires |rs| == 10 && forall i :: 0 <= i < 10 ==> Unit(rs[i].0) && Unit(rs[i].1)
    ensures |data| == 10
    ensures forall i :: 0 <= i < 10 ==> data[i].time == NatToString(i * 10) + "m" && InRange(data[i])
  {
    seq(10, i requires 0 <= i < 10 => Point(NatToString(i * 10) + "m", rs[i]))
  }

  /** The labels of the first window are distinct. */
  lemma GeneratedLabelsDistinct(rs: seq<(real, real)>)
    requires |rs| == 10 && forall i :: 0 <= i < 10 ==> Unit(rs[i].0) && Unit(rs[i].1)
    ensures forall i, j :: 0 <= i < j < 10 ==> GenerateData(rs)[i].time != GenerateData(rs)[j].time
  {
    var data := GenerateData(rs);
    forall i, j | 0 <= i < j < 10
      ensures data[i].time != data[j].time
    {
      if data[i].time == data[j].time {
        var a, b := NatToString(i * 10), NatToString(j * 10);
        assert a == data[i].time[..|a|] by {
          assert data[i].time == a + "m";
        }
        assert |a| == |data[i].time| - 1 == |b|;
        assert b == data[j].time[..|b|];
        NatToStringInjective(i * 10, j * 10);
      }
    }
  }

  /** One tick: `[...prev.slice(1), newPoint]`. */
  function Tick(prev: seq<DataPoint>, r: (real, real)): (next: seq<DataPoint>)
    requires Unit(r.0) && Unit(r.1)
    ensures |next| == if prev == [] then 1 else |prev|
    ensures forall i :: 0 <= i < |prev| - 1 ==> next[i] == prev[i + 1]
    ensures next[|next| - 1].time == "Now" && InRange(next[|next| - 1])
  {
    (if prev == [] then [] else prev[1..]) + [Point("Now", r)]
  }

  /** Every point of a window stays within the drawn ranges across a tick. */
  lemma TickKeepsRanges(prev: seq<DataPoint>, r: (real, real))
    requires Unit(r.0) && Unit(r.1)
    requires forall i :: 0 <= i < |prev| ==> InRange(prev[i])
    ensures forall i :: 0 <= i < |Tick(prev, r)| ==> InRange(Tick(prev, r)[i])
  {
    var next := Tick(prev, r);
    forall i | 0 <= i < |next|
      ensures InRange(next[i])
    {
      if i < |next| - 1 {
        assert next[i] == prev[i + 1];
      }
    }
  }

  /** Several ticks in a row, one pair of draws each. */
  function Ticks(window: seq<DataPoint>, rs: seq<(real, real)>): (r: seq<DataPoint>)
    requires forall i :: 0 <= i < |rs| ==> Unit(rs[i].0) && Unit(rs[i].1)
    decreases |rs|
  {
    if rs == [] then window else Ticks(Tick(window, rs[0]), rs[1..])
  }

  /** After n ticks on a non-empty window the last min(n, size) points are labelled "Now" and the size is kept. */
  lemma {:induction false} TicksSlide(window: seq<DataPoint>, rs: seq<(real, real)>)
    requires window != []
    requires forall i :: 0 <= i < |rs| ==> Unit(rs[i].0) && Unit(rs[i].1)
    ensures |Ticks(window, rs)| == |window|
    ensures forall i :: 0 <= i < |window| && i >= |window| - |rs| ==> Ticks(window, rs)[i].time == "Now"
    decreases |rs|
  {
    if rs != [] {
      var next := Tick(window, rs[0]);
      TicksSlide(next, rs[1..]);
      var r := Ticks(window, rs);
      assert r == Ticks(next, rs[1..]);
      forall i | 0 <= i < |window| && i >= |window| - |rs|
        ensures r[i].time == "Now"
      {
        if i < |window| - |rs[1..]| {
          TicksKeepSuffixMoving(next, rs[1..], i);
        }
      }
    }
  }

  /** After k ticks, point `i` is the window's old point `i + k`. */
  lemma {:induction false} TicksKeepSuffixMoving(window: seq<DataPoint>, rs: seq<(real, real)>, i: nat)
    requires window != [] && i + |rs| < |window|
    requires forall j :: 0 <= j < |rs| ==> Unit(rs[j].0) && Unit(rs[j].1)
    ensures |Ticks(window, rs)| == |window|
    ensures Ticks(window, rs)[i] == window[i + |rs|]
    decreases |rs|
  {
    if rs != [] {
      var next := Tick(window, rs[0]);
      TicksKeepSuffixMoving(next, rs[1..], i);
    }
  }
}
