/**
 * The script's driver: the module-level lists `classifiedList` and
 * `statisticsList` that `classifyYear` appends to, the `forEach` over the
 * year/sensor table, and the run that follows it with `computeGainLoss` and
 * the flattened statistics table.
 */
module Pipeline {
  import opened Wrappers
  import opened Sensors
  import opened Areas
  import opened Change
  import opened Statistics
  import opened Classes

  /** Index of the first entry whose sensor `loadImage` cannot load, or the length. */
  function FirstUnhandled(config: seq<YearSensor>): (n: nat)
    ensures n <= |config|
    ensures forall k :: 0 <= k < n ==> Handled(config[k])
    ensures n < |config| ==> !Handled(config[n])
  {
    if config == [] || !Handled(config[0]) then 0 else 1 + FirstUnhandled(config[1..])
  }

  /**
   * The entries `classifyYear` pushes for the given years and classifier
   * outputs; the ensures spells out the comprehension for the proofs that use it.
   */
  function Entries(config: seq<YearSensor>, rasters: seq<Raster>): (r: seq<ClassifiedYear>)
    requires |rasters| == |config|
    ensures |r| == |config|
    ensures forall k :: 0 <= k < |r| ==> r[k].year == config[k].year && r[k].image == rasters[k]
  {
    seq(|config|, k requires 0 <= k < |config| => ClassifiedYear(config[k].year, rasters[k]))
  }

  /** The script's accumulators over one pixel grid of the region. */
  class Session {
    /** Area of each pixel of the region's grid, as natural numbers. */
    const area: seq<nat>
    var classifiedList: seq<ClassifiedYear>
    var statisticsList: seq<seq<ClassStat>>

    /** The lists grow in step: statistics entry k belongs to classified entry k. */
    ghost predicate Valid()
      reads this
    {
      OnGrid(classifiedList, area) && |statisticsList| == |classifiedList| &&
      forall k :: 0 <= k < |classifiedList| ==>
        statisticsList[k] == ClassStats(classifiedList[k].year, classifiedList[k].image, area)
    }

    constructor (area: seq<nat>)
      ensures Valid() && this.area == area
      ensures classifiedList == [] && statisticsList == []
    {
      this.area := area;
      classifiedList := [];
      statisticsList := [];
    }

    /**
     * `classifyYear` for one year, given the classifier's output on the
     * year's composite. A sensor `loadImage` cannot load leaves `collection`
     * undefined and the call fails before anything is pushed; otherwise it
     * pushes the classified image, takes the sensor's NDVI pair (always
     * defined then) and pushes the year's statistics.
     */
    method ClassifyYear(year: int, sensor: string, classified: Raster) returns (ndvi: Option<NdviPair>)
      requires Valid() && |classified| == |area|
      modifies this
      ensures Valid()
      ensures ndvi.Some? <==> LoadBands(sensor).Some?
      ensures ndvi.Some? ==>
                ndvi == NdviBands(sensor) &&
                classifiedList == old(classifiedList) + [ClassifiedYear(year, classified)] &&
                statisticsList == old(statisticsList) + [ClassStats(year, classified, area)]
      ensures ndvi.None? ==> classifiedList == old(classifiedList) && statisticsList == old(statisticsList)
    {
      var bands := LoadBands(sensor);
      if bands.None? {
        return None;
      }
      classifiedList := classifiedList + [ClassifiedYear(year, classified)];
      NdviCoversLoaded(sensor);
      ndvi := NdviBands(sensor);
      statisticsList := statisticsList + [ClassStats(year, classified, area)];
    }

    /**
     * The `forEach` over the year/sensor table: classifies the entries in
     * order and stops at the first one whose sensor cannot be loaded (the
     * call throws there and nothing after it runs).
     */
    method RunAll(config: seq<YearSensor>, rasters: seq<Raster>) returns (processed: nat)
      requires Valid() && |rasters| == |config|
      requires forall k :: 0 <= k < |rasters| ==> |rasters[k]| == |area|
      modifies this
      ensures Valid()
      ensures processed == FirstUnhandled(config)
      ensures classifiedList == old(classifiedList) + Entries(config[..processed], rasters[..processed])
    {
      processed := 0;
      while processed < |config|
        invariant processed <= |config|
        invariant Valid()
        invariant forall k :: 0 <= k < processed ==> Handled(config[k])
        invariant classifiedList == old(classifiedList) + Entries(config[..processed], rasters[..processed])
      {
        var ndvi := ClassifyYear(config[processed].year, config[processed].sensor, rasters[processed]);
        if ndvi.None? {
          break;
        }
        assert Entries(config[..processed + 1], rasters[..processed + 1])
            == Entries(config[..processed], rasters[..processed]) + [ClassifiedYear(config[processed].year, rasters[processed])];
        processed := processed + 1;
      }
    }
  }

  /** What a completed run hands to the exports: the change records and the statistics table. */
  datatype Outputs = Outputs(changes: seq<ChangeRecord>, table: seq<ClassStat>)

  /**
   * The whole run over a year/sensor table: every year is classified, then
   * the consecutive years are compared and the statistics are flattened into
   * one table, year by year and class by class. A sensor that cannot be
   * loaded aborts the run with no outputs.
   */
  method RunScript(config: seq<YearSensor>, rasters: seq<Raster>, area: seq<nat>) returns (outcome: Option<Outputs>)
    requires |rasters| == |config|
    requires forall k :: 0 <= k < |rasters| ==> |rasters[k]| == |area|
    ensures outcome.None? <==> exists k :: 0 <= k < |config| && !Handled(config[k])
    ensures outcome.Some? ==>
              |outcome.value.changes| == (if |config| < 2 then 0 else |config| - 1) &&
              forall i :: 0 <= i < |outcome.value.changes| ==>
                outcome.value.changes[i] ==
                  PairChange(ClassifiedYear(config[i].year, rasters[i]), ClassifiedYear(config[i + 1].year, rasters[i + 1]), area)
    ensures outcome.Some? ==>
              |outcome.value.table| == ClassCount * |config| &&
              forall k, c :: 0 <= k < |config| && 0 <= c < ClassCount ==>
                outcome.value.table[ClassCount * k + c] == ClassStats(config[k].year, rasters[k], area)[c]
  {
    var session := new Session(area);
    var processed := session.RunAll(config, rasters);
    if processed < |config| {
      return None;
    }
    assert config[..processed] == config && rasters[..processed] == rasters;
    var list := session.classifiedList;
    assert list == Entries(config, rasters);
    var changes := ComputeGainLoss(list, area);
    FlattenRows(session.statisticsList);
    outcome := Some(Outputs(changes, Flatten(session.statisticsList)));
  }

  /** The script's own table runs to the end: no entry aborts the run. */
  lemma YearsSensorsRunFully()
    ensures FirstUnhandled(YearsSensors) == |YearsSensors|
  {
  }
}
