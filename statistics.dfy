/**
 * Per-class area statistics of `classifyYear` and the flattened statistics
 * table. Areas are natural numbers, so every sum is exact; the percent is the
 * ratio `areaKm2 / totalArea * 100`, of which the model keeps both terms.
 */
module Statistics {
  import opened Wrappers
  import opened Areas
  import opened Change
  import opened Classes

  /** One feature of the statistics collection: year, class, class area, region area. */
  datatype ClassStat = ClassStat(year: int, classValue: int, areaKm2: nat, totalArea: nat)

  /** `classified.eq(classValue)` used as a mask: masked pixels are not selected. */
  function ClassMask(image: Raster, c: int): seq<bool>
  {
    seq(|image|, i requires 0 <= i < |image| => image[i] == Some(c))
  }

  /** Pixels whose class is one of the first `k` class values. */
  function ClassesBelow(image: Raster, k: int): seq<bool>
  {
    seq(|image|, i requires 0 <= i < |image| => image[i].Some? && 0 <= image[i].value < k)
  }

  /**
   * The `stats` list over `ee.List.sequence(0, 3)`: one record per class
   * value 0..ClassCount-1 in ascending order,
   * each holding the area of that class's pixels and the area of the whole
   * region (the unmasked pixel-area image), so the class area never exceeds it.
   */
  function ClassStats(year: int, image: Raster, area: seq<nat>): (r: seq<ClassStat>)
    requires |image| == |area|
    ensures |r| == ClassCount
    ensures forall c :: 0 <= c < |r| ==>
              r[c].year == year && r[c].classValue == c &&
              r[c].areaKm2 == SumIf(area, ClassMask(image, c)) &&
              r[c].totalArea == TotalArea(area) && r[c].areaKm2 <= r[c].totalArea
  {
    var r := seq(ClassCount, c requires 0 <= c < ClassCount =>
                 ClassStat(year, c, SumIf(area, ClassMask(image, c)), TotalArea(area)));
    forall c | 0 <= c < ClassCount {
      SumIfTotal(area, ClassMask(image, c));
    }
    r
  }

  /** Sum of the class areas of the first `k` records. */
  function AreaOfFirst(stats: seq<ClassStat>, k: nat): nat
    requires k <= |stats|
  {
    if k == 0 then 0 else AreaOfFirst(stats, k - 1) + stats[k - 1].areaKm2
  }

  lemma {:induction false} ClassPrefixArea(year: int, image: Raster, area: seq<nat>, k: nat)
    requires |image| == |area| && k <= ClassCount
    ensures AreaOfFirst(ClassStats(year, image, area), k) == SumIf(area, ClassesBelow(image, k))
  {
    if k == 0 {
      SumIfNone(area, ClassesBelow(image, 0));
    } else {
      ClassPrefixArea(year, image, area, k - 1);
      SumIfDisjoint(area, ClassesBelow(image, k - 1), ClassMask(image, k - 1), ClassesBelow(image, k));
    }
  }

  /**
   * The class areas partition the area of the pixels classified in 0..3:
   * they sum to it, it is at most the region's area, and it is the whole
   * region when every pixel is classified in 0..3 (the percents then sum to 100).
   */
  lemma StatsPartitionArea(year: int, image: Raster, area: seq<nat>)
    requires |image| == |area|
    ensures AreaOfFirst(ClassStats(year, image, area), ClassCount) == SumIf(area, ClassesBelow(image, ClassCount))
    ensures SumIf(area, ClassesBelow(image, ClassCount)) <= TotalArea(area)
    ensures (forall i :: 0 <= i < |image| ==> image[i].Some? && 0 <= image[i].value < ClassCount) ==>
              AreaOfFirst(ClassStats(year, image, area), ClassCount) == TotalArea(area)
  {
    ClassPrefixArea(year, image, area, ClassCount);
    SumIfTotal(area, ClassesBelow(image, ClassCount));
  }

  /** `FeatureCollection(statisticsList).flatten()`: the collections one after another. */
  function Flatten<T>(xss: seq<seq<T>>): seq<T>
  {
    if xss == [] then [] else xss[0] + Flatten(xss[1..])
  }

  /**
   * Flattening collections of `ClassCount` records each puts record `c` of
   * collection `k` at row `ClassCount * k + c`.
   */
  lemma {:induction false} FlattenRows<T>(xss: seq<seq<T>>)
    requires forall k :: 0 <= k < |xss| ==> |xss[k]| == ClassCount
    ensures |Flatten(xss)| == ClassCount * |xss|
    ensures forall k, c :: 0 <= k < |xss| && 0 <= c < ClassCount ==> Flatten(xss)[ClassCount * k + c] == xss[k][c]
  {
    if xss != [] {
      FlattenRows(xss[1..]);
      forall k, c | 0 <= k < |xss| && 0 <= c < ClassCount
        ensures Flatten(xss)[ClassCount * k + c] == xss[k][c]
      {
        if k > 0 {
          assert xss[1..][k - 1] == xss[k];
        }
      }
    }
  }
}
