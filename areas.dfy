/**
 * Area sums as `reduceRegion` with a sum reducer computes them: the area of
 * the pixels a selection keeps, with pixel areas as natural numbers.
 */
module Areas {

  /** Sum of `area[i]` over the pixels `i` that `sel` selects. */
  function SumIf(area: seq<nat>, sel: seq<bool>): nat
    requires |sel| == |area|
  {
    if area == [] then 0
    else (if sel[0] then area[0] else 0) + SumIf(area[1..], sel[1..])
  }

  /** Area of every pixel in the region. */
  function TotalArea(area: seq<nat>): nat
  {
    if area == [] then 0 else area[0] + TotalArea(area[1..])
  }

  /** Two selections with no pixel in common add up to their union. */
  lemma {:induction false} SumIfDisjoint(area: seq<nat>, s1: seq<bool>, s2: seq<bool>, u: seq<bool>)
    requires |s1| == |s2| == |u| == |area|
    requires forall i :: 0 <= i < |area| ==> !(s1[i] && s2[i]) && (u[i] <==> s1[i] || s2[i])
    ensures SumIf(area, s1) + SumIf(area, s2) == SumIf(area, u)
  {
    if area != [] {
      SumIfDisjoint(area[1..], s1[1..], s2[1..], u[1..]);
    }
  }

  /** Selecting every pixel gives the total area; any selection is at most that. */
  lemma {:induction false} SumIfTotal(area: seq<nat>, sel: seq<bool>)
    requires |sel| == |area|
    ensures SumIf(area, sel) <= TotalArea(area)
    ensures (forall i :: 0 <= i < |area| ==> sel[i]) ==> SumIf(area, sel) == TotalArea(area)
  {
    if area != [] {
      SumIfTotal(area[1..], sel[1..]);
    }
  }

  /** A selection that keeps no pixel has no area. */
  lemma {:induction false} SumIfNone(area: seq<nat>, sel: seq<bool>)
    requires |sel| == |area|
    requires forall i :: 0 <= i < |area| ==> !sel[i]
    ensures SumIf(area, sel) == 0
  {
    if area != [] {
      SumIfNone(area[1..], sel[1..]);
    }
  }
}
