/**
 * Sensor configuration of the land-cover script: the sensor tags it branches
 * on, the band selection `loadImage` applies per sensor, the (NIR, red) pair
 * `computeNDVI` picks per sensor, and the fixed `yearsSensors` table.
 */
module Sensors {
  import opened Wrappers

  /** Every sensor tag the script compares against. */
  datatype Sensor = LT05 | LE07 | LC08 | LC09 | S2

  function Tag(s: Sensor): string
  {
    match s
    case LT05 => "LT05"
    case LE07 => "LE07"
    case LC08 => "LC08"
    case LC09 => "LC09"
    case S2 => "S2"
  }

  /** Reads a tag string; any string that is not one of the five tags is no sensor. */
  function ParseTag(tag: string): (r: Option<Sensor>)
    ensures r.Some? ==> Tag(r.value) == tag
    ensures r.None? ==> forall s: Sensor :: Tag(s) != tag
  {
    if tag == "LT05" then Some(LT05)
    else if tag == "LE07" then Some(LE07)
    else if tag == "LC08" then Some(LC08)
    else if tag == "LC09" then Some(LC09)
    else if tag == "S2" then Some(S2)
    else None
  }

  lemma ParseTagOfTag(s: Sensor)
    ensures ParseTag(Tag(s)) == Some(s)
  {
  }

  /** `select(source, target)`: the bands kept and the names they get. */
  datatype BandSelection = BandSelection(source: seq<string>, target: seq<string>)

  /** The (NIR, red) order handed to `normalizedDifference`. */
  datatype NdviPair = NdviPair(nir: string, red: string)

  predicate Unique(names: seq<string>)
  {
    forall i, j :: 0 <= i < j < |names| ==> names[i] != names[j]
  }

  /** A selection the renaming can apply: one target per source band, no name twice. */
  predicate WellFormed(b: BandSelection)
  {
    |b.source| == |b.target| && |b.target| > 0 && Unique(b.source) && Unique(b.target)
  }

  /** Landsat surface-reflectance bands are renamed by dropping their `SR_` prefix. */
  predicate StripsSrPrefix(b: BandSelection)
  {
    |b.source| == |b.target| &&
    forall i :: 0 <= i < |b.source| ==> b.source[i] == "SR_" + b.target[i]
  }

  /**
   * NDVI band pair of `computeNDVI`; total on `Sensor` because every tag the
   * script knows (LT05 included) has a branch there.
   */
  function NdviOf(s: Sensor): (p: NdviPair)
    ensures p.nir != p.red
  {
    match s
    case LT05 | LE07 => NdviPair("B4", "B3")
    case LC08 | LC09 => NdviPair("B5", "B4")
    case S2 => NdviPair("B8", "B4")
  }

  /**
   * Band selection of `loadImage`. LT05 has no branch there, so it selects
   * nothing; Sentinel-2 bands keep their names.
   */
  function Schema(s: Sensor): (r: Option<BandSelection>)
    ensures r.None? <==> s == LT05
    ensures s == S2 ==> r.Some? && r.value.target == r.value.source
  {
    match s
    case LT05 => None
    case LE07 =>
      Some(BandSelection(["SR_B1", "SR_B2", "SR_B3", "SR_B4", "SR_B5", "SR_B7"],
                         ["B1", "B2", "B3", "B4", "B5", "B7"]))
    case LC08 | LC09 =>
      Some(BandSelection(["SR_B1", "SR_B2", "SR_B3", "SR_B4", "SR_B5", "SR_B6", "SR_B7"],
                         ["B1", "B2", "B3", "B4", "B5", "B6", "B7"]))
    case S2 =>
      Some(BandSelection(["B2", "B3", "B4", "B8", "B11", "B12"],
                         ["B2", "B3", "B4", "B8", "B11", "B12"]))
  }

  /**
   * Every selection `loadImage` makes is well formed, renames Landsat bands by
   * dropping `SR_`, and contains the sensor's NDVI pair among its targets.
   */
  lemma SchemaConsistent(s: Sensor)
    requires Schema(s).Some?
    ensures WellFormed(Schema(s).value)
    ensures NdviOf(s).nir in Schema(s).value.target && NdviOf(s).red in Schema(s).value.target
    ensures s != S2 ==> StripsSrPrefix(Schema(s).value)
  {
    var b := Schema(s).value;
    if s == S2 {
      assert b.target[3] == "B8" && b.target[2] == "B4";
    } else {
      assert NdviOf(s).nir in b.target && NdviOf(s).red in b.target by {
        if s == LE07 {
          assert b.target[3] == "B4" && b.target[2] == "B3";
        } else {
          assert b.target[4] == "B5" && b.target[3] == "B4";
        }
      }
      UniqueLandsat(b.target);
      forall i | 0 <= i < |b.source| ensures b.source[i] == "SR_" + b.target[i] {
        assert b.source[i][3..] == b.target[i];
      }
    }
  }

  /** The Landsat surface-reflectance names of the bands `t`. */
  function SrNames(t: seq<string>): seq<string>
  {
    seq(|t|, i requires 0 <= i < |t| => "SR_" + t[i])
  }

  /** Distinct band numbers give distinct `B<n>` names, with or without `SR_`. */
  lemma UniqueLandsat(t: seq<string>)
    requires t == ["B1", "B2", "B3", "B4", "B5", "B7"] || t == ["B1", "B2", "B3", "B4", "B5", "B6", "B7"]
    ensures Unique(t)
    ensures Unique(SrNames(t))
  {
    forall i, j | 0 <= i < j < |t| ensures t[i] != t[j] {
      assert t[i][1] != t[j][1];
    }
    var u := SrNames(t);
    forall i, j | 0 <= i < j < |u| ensures u[i] != u[j] {
      assert u[i][4] == t[i][1] && u[j][4] == t[j][1];
    }
  }

  /** The cloud/quality mask `loadImage` maps over a sensor's collection. */
  datatype MaskKind = LandsatQA | SentinelSCL

  /** `maskLandsatSR` for the three Landsat branches, `maskSentinel` for S2, nothing for LT05. */
  function MaskRule(s: Sensor): Option<MaskKind>
  {
    match s
    case LT05 => None
    case LE07 | LC08 | LC09 => Some(LandsatQA)
    case S2 => Some(SentinelSCL)
  }

  /** The band each mask reads. */
  function MaskBand(k: MaskKind): string
  {
    match k
    case LandsatQA => "QA_PIXEL"
    case SentinelSCL => "SCL"
  }

  /**
   * Every sensor `loadImage` selects bands for gets a mask, Landsat sensors the
   * QA mask and Sentinel-2 the SCL mask; and the selection drops the band the
   * mask reads, so the mask can only run before the selection.
   */
  lemma MaskRuleConsistent(s: Sensor)
    ensures MaskRule(s).Some? <==> Schema(s).Some?
    ensures MaskRule(s) == Some(LandsatQA) <==> s in {LE07, LC08, LC09}
    ensures MaskRule(s) == Some(SentinelSCL) <==> s == S2
    ensures MaskRule(s).Some? ==>
              MaskBand(MaskRule(s).value) !in Schema(s).value.source &&
              MaskBand(MaskRule(s).value) !in Schema(s).value.target
  {
    if s != LT05 {
      var b := Schema(s).value;
      var m := MaskBand(MaskRule(s).value);
      forall i | 0 <= i < |b.source| ensures b.source[i] != m && b.target[i] != m {
        assert |b.target[i]| <= 3 && |m| >= 3;
        assert b.target[i][0] == 'B' && m[0] != 'B';
      }
    }
  }

  /** `loadImage`'s branch on the tag string; no value for a tag without a branch. */
  function LoadBands(tag: string): Option<BandSelection>
  {
    match ParseTag(tag)
    case None => None
    case Some(s) => Schema(s)
  }

  /** `computeNDVI`'s branch on the tag string; falls through to no value. */
  function NdviBands(tag: string): Option<NdviPair>
  {
    match ParseTag(tag)
    case None => None
    case Some(s) => Some(NdviOf(s))
  }

  const LoadTags: set<string> := {"LE07", "LC08", "LC09", "S2"}
  const NdviTags: set<string> := {"LT05", "LE07", "LC08", "LC09", "S2"}

  /** `loadImage` yields a selection exactly for its four tags. */
  lemma LoadBandsDomain(tag: string)
    ensures LoadBands(tag).Some? <==> tag in LoadTags
  {
  }

  /** `computeNDVI` yields a pair exactly for its five tags. */
  lemma NdviBandsDomain(tag: string)
    ensures NdviBands(tag).Some? <==> tag in NdviTags
  {
  }

  /**
   * Whatever `loadImage` loads, `computeNDVI` can index: the pair exists and
   * both its bands are among the renamed bands. The converse fails for LT05.
   */
  lemma NdviCoversLoaded(tag: string)
    requires LoadBands(tag).Some?
    ensures NdviBands(tag).Some?
    ensures NdviBands(tag).value.nir in LoadBands(tag).value.target
    ensures NdviBands(tag).value.red in LoadBands(tag).value.target
  {
  }

  lemma LT05OnlyInNdvi()
    ensures NdviBands("LT05").Some? && LoadBands("LT05").None?
    ensures LoadTags < NdviTags
  {
  }

  /** The target schemas differ between sensors: the classifier is trained per year. */
  lemma SchemasDifferAcrossSensors()
    ensures Schema(LE07).value.target != Schema(LC08).value.target
    ensures Schema(LC08).value.target != Schema(S2).value.target
    ensures Schema(LC08).value.target == Schema(LC09).value.target
  {
  }

  datatype YearSensor = YearSensor(year: int, sensor: string)

  /** The `yearsSensors` table. */
  const YearsSensors: seq<YearSensor> := [
    YearSensor(2000, "LE07"),
    YearSensor(2007, "LE07"),
    YearSensor(2014, "LC08"),
    YearSensor(2020, "S2"),
    YearSensor(2025, "LC09")
  ]

  predicate Handled(ys: YearSensor)
  {
    LoadBands(ys.sensor).Some?
  }

  /**
   * Every configured sensor is handled by both `loadImage` and `computeNDVI`,
   * and the years run strictly upward, so consecutive entries are consecutive
   * points in time.
   */
  lemma YearsSensorsConsistent()
    ensures forall k :: 0 <= k < |YearsSensors| ==>
              Handled(YearsSensors[k]) && NdviBands(YearsSensors[k].sensor).Some?
    ensures forall k :: 0 <= k < |YearsSensors| - 1 ==> YearsSensors[k].year < YearsSensors[k + 1].year
  {
  }
}
