/**
 * Cloud and quality masks (`maskLandsatSR`, `maskSentinel`) as per-pixel
 * predicates, and `updateMask` on a raster of optional pixels (None = masked).
 */
module Masks {
  import opened Wrappers

  /** `QA_PIXEL` is an unsigned 16-bit band. */
  type QaValue = v: nat | v < 0x1_0000

  function Pow2(k: nat): (p: nat)
    ensures p >= 1
  {
    if k == 0 then 1 else 2 * Pow2(k - 1)
  }

  /** Bit `k` of `v`: the reference reading of a flag. */
  function Bit(v: nat, k: nat): (b: nat)
    ensures b < 2
  {
    if k == 0 then v % 2 else Bit(v / 2, k - 1)
  }

  /** `bitwiseAnd` on non-negative integers, one binary digit at a time. */
  function BitAnd(a: nat, b: nat): (r: nat)
    ensures r <= a && r <= b
  {
    if a == 0 || b == 0 then 0 else 2 * BitAnd(a / 2, b / 2) + (a % 2) * (b % 2)
  }

  /** `maskLandsatSR`: keep a pixel iff `QA_PIXEL & (1 << 3)` and `QA_PIXEL & (1 << 5)` are both zero. */
  predicate KeepLandsat(qa: QaValue)
  {
    BitAnd(qa, Pow2(3)) == 0 && BitAnd(qa, Pow2(5)) == 0
  }

  /** And-ing with a single set bit isolates that bit. */
  lemma {:induction false} BitAndPow2(a: nat, k: nat)
    ensures BitAnd(a, Pow2(k)) == Pow2(k) * Bit(a, k)
  {
    if k == 0 {
    } else if a == 0 {
      ZeroBit(k);
    } else {
      assert Pow2(k) / 2 == Pow2(k - 1) && Pow2(k) % 2 == 0;
      BitAndPow2(a / 2, k - 1);
    }
  }

  lemma {:induction false} ZeroBit(k: nat)
    ensures Bit(0, k) == 0
  {
    if k > 0 {
      ZeroBit(k - 1);
    }
  }

  /** The Landsat mask keeps exactly the pixels whose bits 3 and 5 are clear. */
  lemma KeepLandsatBits(qa: QaValue)
    ensures KeepLandsat(qa) <==> Bit(qa, 3) == 0 && Bit(qa, 5) == 0
  {
    BitAndPow2(qa, 3);
    BitAndPow2(qa, 5);
    assert Pow2(3) == 8 && Pow2(5) == 32;
  }

  /** `maskSentinel`: keep a pixel iff its `SCL` value is none of 3, 8, 9 and 10. */
  predicate KeepSentinel(scl: int)
  {
    scl != 3 && scl != 8 && scl != 9 && scl != 10
  }

  /** The Sentinel-2 Level-2A scene classification, as the reference for `SCL` codes. */
  datatype SceneClass =
    | NoData | SaturatedOrDefective | DarkAreaPixels | CloudShadows
    | Vegetation | NotVegetated | Water | Unclassified
    | CloudMediumProbability | CloudHighProbability | ThinCirrus | SnowOrIce

  function SceneCode(c: SceneClass): (v: nat)
    ensures v < 12
  {
    match c
    case NoData => 0
    case SaturatedOrDefective => 1
    case DarkAreaPixels => 2
    case CloudShadows => 3
    case Vegetation => 4
    case NotVegetated => 5
    case Water => 6
    case Unclassified => 7
    case CloudMediumProbability => 8
    case CloudHighProbability => 9
    case ThinCirrus => 10
    case SnowOrIce => 11
  }

  /** Cloud, cirrus and cloud-shadow classes. */
  predicate CloudOrShadow(c: SceneClass)
  {
    c == CloudShadows || c == CloudMediumProbability || c == CloudHighProbability || c == ThinCirrus
  }

  /**
   * The Sentinel mask removes exactly the cloud, cirrus and cloud-shadow
   * classes; every other class (snow, saturated, no-data included) is kept, and
   * so is any value outside the classification.
   */
  lemma KeepSentinelClasses(scl: int)
    ensures forall c: SceneClass :: SceneCode(c) == scl ==> (KeepSentinel(scl) <==> !CloudOrShadow(c))
    ensures (forall c: SceneClass :: SceneCode(c) != scl) ==> KeepSentinel(scl)
  {
    if !KeepSentinel(scl) {
      var c := if scl == 3 then CloudShadows
               else if scl == 8 then CloudMediumProbability
               else if scl == 9 then CloudHighProbability
               else ThinCirrus;
      assert SceneCode(c) == scl;
    }
  }

  /** One observation of a Landsat surface-reflectance image. */
  datatype LandsatObs = LandsatObs(qa: QaValue, reflectance: seq<int>)

  /** One observation of a Sentinel-2 surface-reflectance image. */
  datatype SentinelObs = SentinelObs(scl: int, reflectance: seq<int>)

  /**
   * `updateMask`: a pixel stays unmasked iff it was unmasked and the mask
   * keeps it; kept pixels are unchanged.
   */
  function UpdateMask<T>(img: seq<Option<T>>, keep: T -> bool): (r: seq<Option<T>>)
    ensures |r| == |img|
    ensures forall i :: 0 <= i < |img| ==> (r[i].Some? <==> img[i].Some? && keep(img[i].value))
    ensures forall i :: 0 <= i < |img| && r[i].Some? ==> r[i] == img[i]
  {
    if img == [] then []
    else
      var head := if img[0].Some? && keep(img[0].value) then img[0] else None;
      [head] + UpdateMask(img[1..], keep)
  }

  function MaskLandsatSR(img: seq<Option<LandsatObs>>): (r: seq<Option<LandsatObs>>)
    ensures |r| == |img|
    ensures forall i :: 0 <= i < |img| ==>
              r[i] == if img[i].Some? && Bit(img[i].value.qa, 3) == 0 && Bit(img[i].value.qa, 5) == 0
                      then img[i] else None
  {
    var r := UpdateMask(img, (o: LandsatObs) => KeepLandsat(o.qa));
    forall i | 0 <= i < |img| && img[i].Some? {
      KeepLandsatBits(img[i].value.qa);
    }
    r
  }

  function MaskSentinel(img: seq<Option<SentinelObs>>): (r: seq<Option<SentinelObs>>)
    ensures |r| == |img|
    ensures forall i :: 0 <= i < |img| ==>
              r[i] == if img[i].Some? && (forall c: SceneClass :: SceneCode(c) == img[i].value.scl ==> !CloudOrShadow(c))
                      then img[i] else None
  {
    var r := UpdateMask(img, (o: SentinelObs) => KeepSentinel(o.scl));
    forall i | 0 <= i < |img| && img[i].Some? {
      KeepSentinelClasses(img[i].value.scl);
    }
    r
  }
}
