/**
 * The eco-score badge (components/SustainabilityBadge.tsx): its colour by
 * score and its size, `md` unless given.
 */
module SustainabilityBadge {
  import opened Wrappers

  datatype Colour = Red | Yellow | Green
  datatype Size = Sm | Md | Lg

  /** Green from 80, yellow from 50, red below. */
  function ColourFor(score: int): (c: Colour)
    ensures c == Green <==> score >= 80
    ensures c == Yellow <==> 50 <= score < 80
    ensures c == Red <==> score < 50
  {
    if score >= 80 then Green else if score >= 50 then Yellow else Red
  }

  function Rank(c: Colour): nat {
    match c
    case Red => 0
    case Yellow => 1
    case Green => 2
  }

  /** A higher score never gets a worse colour. */
  lemma ColourMonotone(a: int, b: int)
    requires a <= b
    ensures Rank(ColourFor(a)) <= Rank(ColourFor(b))
  {
  }

  /** The `size` prop, `md` when absent. */
  function SizeOf(size: Option<Size>): (s: Size)
    ensures size.None? ==> s == Md
    ensures size.Some? ==> s == size.value
  {
    size.GetOr(Md)
  }
}
