/**
 * A magnet (app/models/magnet.ts): three read-only fields, each defaulting
 * to "Unknown" when the constructor argument leaves it out.
 */
module Magnets {
  import opened Wrappers

  /** The `MagnetTypes` string union. */
  datatype MagnetType = UnknownType | Neodymium | SamariumCobalt

  function MagnetTypeName(t: MagnetType): string {
    match t
    case UnknownType => "Unknown"
    case Neodymium => "Neodymium"
    case SamariumCobalt => "Samarium Cobalt"
  }

  /** The `orientation` string union. */
  datatype Orientation = UnknownOrientation | Axial | Diametric

  function OrientationName(o: Orientation): string {
    match o
    case UnknownOrientation => "Unknown"
    case Axial => "Axial"
    case Diametric => "Diametric"
  }

  /** A constructed `Magnet`. */
  datatype Magnet = Magnet(magnetType: MagnetType, orientation: Orientation, fieldStrength: string)

  /** `Partial<MagnetInterface>` as passed to the constructor. */
  datatype MagnetMeta = MagnetMeta(
    magnetType: Option<MagnetType>,
    orientation: Option<Orientation>,
    fieldStrength: Option<string>)

  /** The `Magnet` constructor: every missing field becomes "Unknown", a given one is kept verbatim. */
  function NewMagnet(meta: MagnetMeta): (m: Magnet)
    ensures meta.magnetType.None? ==> MagnetTypeName(m.magnetType) == "Unknown"
    ensures meta.magnetType.Some? ==> m.magnetType == meta.magnetType.value
    ensures meta.orientation.None? ==> OrientationName(m.orientation) == "Unknown"
    ensures meta.orientation.Some? ==> m.orientation == meta.orientation.value
    ensures meta.fieldStrength.None? ==> m.fieldStrength == "Unknown"
    ensures meta.fieldStrength.Some? ==> m.fieldStrength == meta.fieldStrength.value
  {
    Magnet(meta.magnetType.GetOr(UnknownType), meta.orientation.GetOr(UnknownOrientation),
           meta.fieldStrength.GetOr("Unknown"))
  }

  /** The fields of a magnet. */
  function MetaOf(m: Magnet): MagnetMeta {
    MagnetMeta(Some(m.magnetType), Some(m.orientation), Some(m.fieldStrength))
  }

  /**
   * Rebuilding a magnet from its own fields gives it back, and every magnet
   * is built from the argument that lists its fields, so the constructor
   * loses nothing it is given.
   */
  lemma NewMagnetRoundTrip(m: Magnet, meta: MagnetMeta)
    ensures NewMagnet(MetaOf(m)) == m
    ensures NewMagnet(meta) == m <==>
      (meta.magnetType.GetOr(UnknownType) == m.magnetType &&
       meta.orientation.GetOr(UnknownOrientation) == m.orientation &&
       meta.fieldStrength.GetOr("Unknown") == m.fieldStrength)
  {
  }

  /** "Unknown" names exactly the default type and the default orientation. */
  lemma UnknownNamesDefault(t: MagnetType, o: Orientation)
    ensures MagnetTypeName(t) == "Unknown" <==> t == UnknownType
    ensures OrientationName(o) == "Unknown" <==> o == UnknownOrientation
  {
  }
}
