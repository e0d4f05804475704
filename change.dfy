/**
 * Vegetation change detection (`computeGainLoss`): per pixel, gain is a move
 * into the vegetation class between two years and loss a move out of it;
 * a pixel masked in either year is masked in both layers.
 */
module Change {
  import opened Wrappers
  import opened Areas
  import opened Classes

  /** The class value the change layers are keyed to: 3, "Vegetation". */
  const VegetationValue: int := ClassValue(Vegetation)

  /** A classified raster: one class value per pixel, None where masked. */
  type Raster = seq<Option<int>>

  /** One entry of `classifiedList`. */
  datatype ClassifiedYear = ClassifiedYear(year: int, image: Raster)

  /** `next.eq(3).and(current.neq(3))` at one pixel. */
  function GainAt(current: Option<int>, next: Option<int>): Option<bool>
  {
    if current.Some? && next.Some? then Some(next.value == VegetationValue && current.value != VegetationValue) else None
  }

  /** `current.eq(3).and(next.neq(3))` at one pixel. */
  function LossAt(current: Option<int>, next: Option<int>): Option<bool>
  {
    if current.Some? && next.Some? then Some(current.value == VegetationValue && next.value != VegetationValue) else None
  }

  /** Per-pixel meaning of the two layers. */
  lemma GainLossAtMeaning(current: Option<int>, next: Option<int>)
    ensures GainAt(current, next).None? <==> current.None? || next.None?
    ensures LossAt(current, next).None? <==> current.None? || next.None?
    ensures GainAt(current, next) == Some(true) <==> current.Some? && current != Some(VegetationValue) && next == Some(VegetationValue)
    ensures LossAt(current, next) == Some(true) <==> next.Some? && current == Some(VegetationValue) && next != Some(VegetationValue)
  {
  }

  function GainLayer(current: Raster, next: Raster): seq<Option<bool>>
    requires |current| == |next|
  {
    seq(|current|, i requires 0 <= i < |current| => GainAt(current[i], next[i]))
  }

  function LossLayer(current: Raster, next: Raster): seq<Option<bool>>
    requires |current| == |next|
  {
    seq(|current|, i requires 0 <= i < |current| => LossAt(current[i], next[i]))
  }

  /** Selection of the pixels a layer flags: masked pixels drop out of the sum. */
  function Flagged(layer: seq<Option<bool>>): seq<bool>
  {
    seq(|layer|, i requires 0 <= i < |layer| => layer[i] == Some(true))
  }

  /** What one iteration of the pair loop produces for years `current`, `next`. */
  datatype ChangeRecord = ChangeRecord(
    fromYear: int, toYear: int,
    gain: seq<Option<bool>>, loss: seq<Option<bool>>,
    gainArea: nat, lossArea: nat)

  function PairChange(current: ClassifiedYear, next: ClassifiedYear, area: seq<nat>): ChangeRecord
    requires |current.image| == |area| && |next.image| == |area|
  {
    var gain := GainLayer(current.image, next.image);
    var loss := LossLayer(current.image, next.image);
    ChangeRecord(current.year, next.year, gain, loss,
                 SumIf(area, Flagged(gain)), SumIf(area, Flagged(loss)))
  }

  /** Every image of the list is on the pixel grid of `area`. */
  predicate OnGrid(list: seq<ClassifiedYear>, area: seq<nat>)
  {
    forall k :: 0 <= k < |list| ==> |list[k].image| == |area|
  }

  /**
   * The pair loop of `computeGainLoss`: visits (i, i+1) for every i with
   * i < length - 1, in list order, so n - 1 pairs and none below two years.
   */
  method ComputeGainLoss(classifiedList: seq<ClassifiedYear>, area: seq<nat>) returns (changes: seq<ChangeRecord>)
    requires OnGrid(classifiedList, area)
    ensures |changes| == if |classifiedList| < 2 then 0 else |classifiedList| - 1
    ensures forall i :: 0 <= i < |changes| ==>
              changes[i] == PairChange(classifiedList[i], classifiedList[i + 1], area)
  {
    changes := [];
    var i := 0;
    while i < |classifiedList| - 1
      invariant 0 <= i
      invariant |classifiedList| >= 1 ==> i <= |classifiedList| - 1
      invariant |classifiedList| < 1 ==> i == 0
      invariant |changes| == i
      invariant forall k :: 0 <= k < i ==>
                  changes[k] == PairChange(classifiedList[k], classifiedList[k + 1], area)
    {
      var current := classifiedList[i];
      var next := classifiedList[i + 1];
      changes := changes + [PairChange(current, next, area)];
      i := i + 1;
    }
  }

  /** No pixel is flagged both as gain and as loss. */
  lemma GainLossExclusive(current: Raster, next: Raster)
    requires |current| == |next|
    ensures forall i :: 0 <= i < |current| ==>
              !(GainLayer(current, next)[i] == Some(true) && LossLayer(current, next)[i] == Some(true))
  {
  }

  /** Two identical classifications flag no gain and no loss anywhere. */
  lemma NoChangeNoFlags(image: Raster)
    ensures forall i :: 0 <= i < |image| ==>
              GainLayer(image, image)[i] != Some(true) && LossLayer(image, image)[i] != Some(true)
  {
  }

  /** Swapping the two years swaps gain and loss. */
  lemma SwapYears(a: Raster, b: Raster)
    requires |a| == |b|
    ensures GainLayer(a, b) == LossLayer(b, a)
    ensures LossLayer(a, b) == GainLayer(b, a)
  {
  }

  /** Identical years give zero gain area and zero loss area. */
  lemma NoChangeNoArea(c: ClassifiedYear, n: ClassifiedYear, area: seq<nat>)
    requires |c.image| == |area| && n.image == c.image
    ensures PairChange(c, n, area).gainArea == 0 && PairChange(c, n, area).lossArea == 0
  {
    var r := PairChange(c, n, area);
    NoChangeNoFlags(c.image);
    SumIfNone(area, Flagged(r.gain));
    SumIfNone(area, Flagged(r.loss));
  }

  /** Swapped years give the gain area as loss area and vice versa. */
  lemma SwapYearsArea(c: ClassifiedYear, n: ClassifiedYear, area: seq<nat>)
    requires |c.image| == |area| && |n.image| == |area|
    ensures PairChange(c, n, area).gainArea == PairChange(n, c, area).lossArea
    ensures PairChange(c, n, area).lossArea == PairChange(n, c, area).gainArea
  {
    SwapYears(c.image, n.image);
  }

  /** Gain and loss together never cover more than the region. */
  lemma GainLossAreaBound(c: ClassifiedYear, n: ClassifiedYear, area: seq<nat>)
    requires |c.image| == |area| && |n.image| == |area|
    ensures PairChange(c, n, area).gainArea + PairChange(c, n, area).lossArea <= TotalArea(area)
  {
    var r := PairChange(c, n, area);
    var g, l := Flagged(r.gain), Flagged(r.loss);
    var u := seq(|area|, i requires 0 <= i < |area| => g[i] || l[i]);
    GainLossExclusive(c.image, n.image);
    SumIfDisjoint(area, g, l, u);
    SumIfTotal(area, u);
  }

  /** Vegetation pixels of `image` among the pixels unmasked in both years. */
  function VegetationWhereBoth(image: Raster, current: Raster, next: Raster): seq<bool>
    requires |image| == |current| == |next|
  {
    seq(|image|, i requires 0 <= i < |image| =>
          current[i].Some? && next[i].Some? && image[i] == Some(VegetationValue))
  }

  /**
   * Net vegetation change: over the pixels classified in both years, the
   * vegetation area of the later year equals that of the earlier year plus
   * the gain area minus the loss area.
   */
  lemma NetVegetationChange(c: ClassifiedYear, n: ClassifiedYear, area: seq<nat>)
    requires |c.image| == |area| && |n.image| == |area|
    ensures SumIf(area, VegetationWhereBoth(c.image, c.image, n.image)) + PairChange(c, n, area).gainArea
         == SumIf(area, VegetationWhereBoth(n.image, c.image, n.image)) + PairChange(c, n, area).lossArea
  {
    var r := PairChange(c, n, area);
    var g, l := Flagged(r.gain), Flagged(r.loss);
    var stay := seq(|area|, i requires 0 <= i < |area| =>
                      c.image[i] == Some(VegetationValue) && n.image[i] == Some(VegetationValue));
    SumIfDisjoint(area, stay, g, VegetationWhereBoth(n.image, c.image, n.image));
    SumIfDisjoint(area, stay, l, VegetationWhereBoth(c.image, c.image, n.image));
  }

  /** Chronologically ordered years give forward-in-time pairs. */
  lemma ChangesMoveForward(list: seq<ClassifiedYear>, area: seq<nat>, changes: seq<ChangeRecord>)
    requires OnGrid(list, area)
    requires forall k :: 0 <= k < |list| - 1 ==> list[k].year < list[k + 1].year
    requires |changes| == if |list| < 2 then 0 else |list| - 1
    requires forall i :: 0 <= i < |changes| ==> changes[i] == PairChange(list[i], list[i + 1], area)
    ensures forall i :: 0 <= i < |changes| ==> changes[i].fromYear < changes[i].toYear
  {
    forall i | 0 <= i < |changes| ensures changes[i].fromYear < changes[i].toYear {
      var r := PairChange(list[i], list[i + 1], area);
      assert r.fromYear == list[i].year && r.toYear == list[i + 1].year;
      assert changes[i] == r;
    }
  }
}
