/** The land-cover classes the training polygons are labelled with. */
module Classes {

  datatype LandCover = BuiltUp | Bareland | Water | Vegetation

  /** The `Class` property set on each training collection. */
  function ClassValue(c: LandCover): (v: nat)
    ensures v < ClassCount
  {
    match c
    case BuiltUp => 0
    case Bareland => 1
    case Water => 2
    case Vegetation => 3
  }

  /** Number of classes; the statistics cover the values 0 to ClassCount - 1. */
  const ClassCount: nat := 4

  /** The class a classified pixel value in 0..ClassCount-1 stands for. */
  function ClassOf(v: nat): LandCover
    requires v < ClassCount
  {
    if v == 0 then BuiltUp else if v == 1 then Bareland else if v == 2 then Water else Vegetation
  }

  /** The labels are a dense range 0..ClassCount-1, one value per class. */
  lemma ClassValuesDense()
    ensures forall c, d :: ClassValue(c) == ClassValue(d) ==> c == d
    ensures forall c :: ClassOf(ClassValue(c)) == c
    ensures forall v :: 0 <= v < ClassCount ==> ClassValue(ClassOf(v)) == v
  {
  }
}
