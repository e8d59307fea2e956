/**
 * `MagnetImplant` (app/models/magnet_implant.ts): a `Mod` of type "Magnet"
 * holding a list of magnets and an encapsulation, whose summary is a Core
 * line, an optional Field Strength line and an Encapsulation line; and the
 * `MAGNET_IMPLANT_MAP` registry.
 */
module MagnetImplants {
  import opened Wrappers
  import opened Shapes
  import opened Js
  import opened Mods
  import opened Magnets
  import ChipImplants

  /** The `type` union of an encapsulation. */
  datatype EncapsulationType = UnknownEncapsulation | Casing | Coating

  datatype Encapsulation = Encapsulation(encapsulationType: EncapsulationType, material: string)

  /** `Partial<MagnetEncapsulationInterface>`: each key given or absent. */
  datatype EncapsulationMeta = EncapsulationMeta(
    encapsulationType: Option<EncapsulationType>,
    material: Option<string>)

  /** `Partial<MagnetImplantInterface>` as passed to the constructor. */
  datatype MagnetImplantMeta = MagnetImplantMeta(
    name: Option<string>,
    magnet: Option<OneOrMany<Magnet>>,
    encapsulation: Option<EncapsulationMeta>)

  /** A constructed `MagnetImplant`: its `Mod` part, its magnets and its encapsulation. */
  datatype MagnetImplant = MagnetImplant(base: Mod, magnet: seq<Magnet>, encapsulation: Encapsulation)

  /** `{ type: "Unknown", material: "Unknown", ...encapsulation }` */
  function EncapsulationOf(e: Option<EncapsulationMeta>): (r: Encapsulation)
    ensures e.None? ==> r == Encapsulation(UnknownEncapsulation, "Unknown")
    ensures e.Some? ==> r.encapsulationType == e.value.encapsulationType.GetOr(UnknownEncapsulation)
    ensures e.Some? ==> r.material == e.value.material.GetOr("Unknown")
  {
    var given := e.GetOr(EncapsulationMeta(None, None));
    Encapsulation(given.encapsulationType.GetOr(UnknownEncapsulation), given.material.GetOr("Unknown"))
  }

  /**
   * The constructor: a falsy name throws (with the chip implant's message);
   * otherwise the `Mod` part is named as given, typed "Magnet", installed
   * "Unknown" with no description, and the magnets are normalised to a list
   * (none given: the empty list).
   */
  function Create(meta: MagnetImplantMeta): (r: Result<MagnetImplant>)
    ensures r.Err? <==> !ChipImplants.NameGiven(meta.name)
    ensures r.Err? ==> r.error == ConstructionError(ChipImplants.NameRequired)
    ensures r.Ok? ==> r.value.base.name == meta.name.value
    ensures r.Ok? ==> r.value.base.modType == "Magnet" && r.value.base.installMethod == "Unknown"
    ensures r.Ok? ==> r.value.base.description.None?
    ensures r.Ok? && meta.magnet.None? ==> r.value.magnet == []
    ensures r.Ok? && meta.magnet.Some? ==> r.value.magnet == AsArray(meta.magnet.value)
    ensures r.Ok? ==> r.value.encapsulation == EncapsulationOf(meta.encapsulation)
  {
    if !ChipImplants.NameGiven(meta.name) then Err(ConstructionError(ChipImplants.NameRequired))
    else
      var base := NewMod(ModMetadata(meta.name.value, "Magnet", None, None), None);
      Ok(MagnetImplant(base, AsArray(meta.magnet.GetOr(Many([]))), EncapsulationOf(meta.encapsulation)))
  }

  /** The `field_strength` getter: one entry per magnet, in order. */
  function FieldStrength(m: MagnetImplant): (fs: seq<string>)
    ensures |fs| == |m.magnet|
    ensures forall i :: 0 <= i < |fs| ==> fs[i] == m.magnet[i].fieldStrength
  {
    seq(|m.magnet|, i requires 0 <= i < |m.magnet| => m.magnet[i].fieldStrength)
  }

  /** The record the `features` getter returns. */
  datatype MagnetImplantFeatures = MagnetImplantFeatures(
    encapsulation: Encapsulation,
    fieldStrength: seq<string>,
    magnet: seq<Magnet>)

  function Features(m: MagnetImplant): MagnetImplantFeatures {
    MagnetImplantFeatures(m.encapsulation, FieldStrength(m), m.magnet)
  }

  /**
   * `summary_encapsulation`: "Unknown" when nothing is known, the material
   * alone when only the type is unknown, and otherwise the material, a
   * space and " Encased" or " Coated" (so two spaces in a row).
   */
  function SummaryEncapsulation(m: MagnetImplant): (line: SummaryLine)
    ensures line.feature == "Encapsulation"
    ensures m.encapsulation.encapsulationType == UnknownEncapsulation ==> line.value == m.encapsulation.material
    ensures m.encapsulation.encapsulationType == Casing ==> line.value == m.encapsulation.material + "  Encased"
    ensures m.encapsulation.encapsulationType == Coating ==> line.value == m.encapsulation.material + "  Coated"
  {
    var e := m.encapsulation;
    if e.encapsulationType == UnknownEncapsulation && e.material == "Unknown" then
      SummaryLine("Encapsulation", "Unknown")
    else if e.encapsulationType == UnknownEncapsulation then
      SummaryLine("Encapsulation", e.material)
    else
      var suffix := if e.encapsulationType == Casing then " Encased" else " Coated";
      assert e.material + " " + suffix == e.material + (" " + suffix);
      SummaryLine("Encapsulation", e.material + " " + suffix)
  }

  /** Every strength formatted by `numberToLocalizedNumber`. */
  function Localized(fs: seq<string>, format: string -> string): (r: seq<string>)
    ensures |r| == |fs|
    ensures forall i :: 0 <= i < |fs| ==> r[i] == NumberToLocalizedNumber(fs[i], format)
  {
    seq(|fs|, i requires 0 <= i < |fs| => NumberToLocalizedNumber(fs[i], format))
  }

  /**
   * `summary_field_strength`: absent exactly when every strength is
   * "Unknown" (in particular with no magnets), otherwise the formatted
   * strengths joined by ", ". `format` stands for the locale's number format.
   */
  function SummaryFieldStrength(m: MagnetImplant, format: string -> string): (r: Option<SummaryLine>)
    ensures r.None? <==> forall i :: 0 <= i < |m.magnet| ==> m.magnet[i].fieldStrength == "Unknown"
    ensures r.Some? ==> r.value == SummaryLine("Field Strength", Join(Localized(FieldStrength(m), format), ", "))
  {
    var fs := FieldStrength(m);
    if forall v <- fs :: v == "Unknown" then
      assert forall i :: 0 <= i < |m.magnet| ==> m.magnet[i].fieldStrength == "Unknown" by {
        forall i | 0 <= i < |m.magnet| ensures m.magnet[i].fieldStrength == "Unknown" {
          assert fs[i] in fs;
        }
      }
      None
    else
      Some(SummaryLine("Field Strength", Join(Localized(fs, format), ", ")))
  }

  /** The type name of each magnet, in order. */
  function TypeNames(m: MagnetImplant): (names: seq<string>)
    ensures |names| == |m.magnet|
    ensures forall i :: 0 <= i < |m.magnet| ==> names[i] == MagnetTypeName(m.magnet[i].magnetType)
  {
    seq(|m.magnet|, i requires 0 <= i < |m.magnet| => MagnetTypeName(m.magnet[i].magnetType))
  }

  /** The distinct magnet type names, at their first occurrence. */
  function CoreTypes(m: MagnetImplant): (names: seq<string>)
    ensures forall n :: n in names <==> exists i :: 0 <= i < |m.magnet| && n == MagnetTypeName(m.magnet[i].magnetType)
    ensures forall i, j :: 0 <= i < j < |names| ==> names[i] != names[j]
  {
    var typeNames := TypeNames(m);
    assert forall n :: n in typeNames <==> exists i :: 0 <= i < |m.magnet| && n == MagnetTypeName(m.magnet[i].magnetType) by {
      forall n ensures n in typeNames ==> exists i :: 0 <= i < |m.magnet| && n == MagnetTypeName(m.magnet[i].magnetType) {
        if n in typeNames {
          var i :| 0 <= i < |typeNames| && typeNames[i] == n;
        }
      }
      forall i | 0 <= i < |m.magnet| ensures MagnetTypeName(m.magnet[i].magnetType) in typeNames {
        assert typeNames[i] == MagnetTypeName(m.magnet[i].magnetType);
      }
    }
    Distinct(typeNames)
  }

  /**
   * The core names follow the magnets: wherever a magnet has the later of
   * two names, a magnet before it has the earlier one.
   */
  lemma CoreTypesFirstOccurrence(m: MagnetImplant)
    ensures forall i, j, k :: 0 <= i < j < |CoreTypes(m)| && 0 <= k < |m.magnet| && MagnetTypeName(m.magnet[k].magnetType) == CoreTypes(m)[j] ==>
      exists l :: 0 <= l < k && MagnetTypeName(m.magnet[l].magnetType) == CoreTypes(m)[i]
  {
    var typeNames := TypeNames(m);
    assert CoreTypes(m) == Distinct(typeNames);
    DistinctFirstOccurrenceOrder(typeNames);
    forall i, j, k | 0 <= i < j < |CoreTypes(m)| && 0 <= k < |m.magnet| && MagnetTypeName(m.magnet[k].magnetType) == CoreTypes(m)[j]
      ensures exists l :: 0 <= l < k && MagnetTypeName(m.magnet[l].magnetType) == CoreTypes(m)[i]
    {
      assert typeNames[k] == Distinct(typeNames)[j];
      var l :| 0 <= l < k && typeNames[l] == Distinct(typeNames)[i];
      assert MagnetTypeName(m.magnet[l].magnetType) == CoreTypes(m)[i];
    }
  }

  /** The "Core" line: the distinct magnet type names joined by ",\n". */
  function CoreLine(m: MagnetImplant): SummaryLine {
    SummaryLine("Core", Join(CoreTypes(m), ",\n"))
  }

  /** `summary`: Core, then Field Strength when present, then Encapsulation. */
  function Summary(m: MagnetImplant, format: string -> string): (lines: seq<SummaryLine>)
    ensures 2 <= |lines| <= 3
    ensures lines[0] == CoreLine(m)
    ensures lines[|lines| - 1] == SummaryEncapsulation(m)
    ensures |lines| == 3 <==> SummaryFieldStrength(m, format).Some?
    ensures |lines| == 3 ==> lines[1] == SummaryFieldStrength(m, format).value
  {
    var candidates := [Some(CoreLine(m)), SummaryFieldStrength(m, format), Some(SummaryEncapsulation(m))];
    CompactBetween(CoreLine(m), SummaryFieldStrength(m, format), SummaryEncapsulation(m));
    Compact(candidates)
  }

  /** With one known type among all magnets the Core line is that type's name alone. */
  lemma {:induction false} CoreOfOneType(m: MagnetImplant, t: MagnetType)
    requires |m.magnet| > 0
    requires forall i :: 0 <= i < |m.magnet| ==> m.magnet[i].magnetType == t
    ensures CoreLine(m).value == MagnetTypeName(t)
  {
    var typeNames := TypeNames(m);
    assert forall x <- typeNames :: x == MagnetTypeName(t);
    DistinctOfConstant(typeNames, MagnetTypeName(t));
  }

  /** Dropping the nulls around an optional middle line keeps the two outer lines in place. */
  lemma CompactBetween<T(!new)>(first: T, middle: Option<T>, last: T)
    ensures middle.None? ==> Compact([Some(first), middle, Some(last)]) == [first, last]
    ensures middle.Some? ==> Compact([Some(first), middle, Some(last)]) == [first, middle.value, last]
  {
    var s := [Some(first), middle, Some(last)];
    assert s[..2] == [Some(first), middle] && s[..2][..1] == [Some(first)] && s[..2][..1][..0] == [];
  }

  // ---------------------------------------------------------------
  // MAGNET_IMPLANT_MAP
  // ---------------------------------------------------------------

  function GlassCased(name: string, orientation: Orientation): MagnetImplantMeta {
    MagnetImplantMeta(Some(name),
      Some(Many([NewMagnet(MagnetMeta(Some(Neodymium), Some(orientation), None))])),
      Some(EncapsulationMeta(Some(Casing), Some("Glass"))))
  }

  function TiTAN(): MagnetImplantMeta {
    MagnetImplantMeta(Some("DT TiTAN"),
      Some(Many([NewMagnet(MagnetMeta(Some(Neodymium), Some(Axial), Some("2.9 kG")))])),
      Some(EncapsulationMeta(Some(Casing), Some("Titanium"))))
  }

  /** The registry, key and constructor argument, in declaration order. */
  const MagnetImplantMap: seq<(string, MagnetImplantMeta)> := [
    ("DT xG3 v1", GlassCased("DT xG3 v1", Axial)),
    ("DT xG3 v2", GlassCased("DT xG3 v2", Diametric)),
    ("DT TiTAN", TiTAN())
  ]

  /**
   * What an entry gives: it builds, under its key as name; it reports a
   * field strength exactly when it is the TiTAN; its core is Neodymium.
   */
  predicate EntryBehaves(key: string, meta: MagnetImplantMeta, format: string -> string) {
    Create(meta).Ok? && Create(meta).value.base.name == key &&
    (SummaryFieldStrength(Create(meta).value, format).Some? <==> key == "DT TiTAN") &&
    CoreLine(Create(meta).value).value == "Neodymium"
  }

  /** A glass-cased entry builds under its name, has no known field strength and a Neodymium core. */
  lemma GlassCasedBehaves(name: string, orientation: Orientation, format: string -> string)
    requires name != "" && name != "DT TiTAN"
    ensures EntryBehaves(name, GlassCased(name, orientation), format)
  {
    var m := Create(GlassCased(name, orientation)).value;
    assert m.magnet[0].fieldStrength == "Unknown";
    CoreOfOneType(m, Neodymium);
  }

  /** The TiTAN builds under its name, has a field strength and a Neodymium core. */
  lemma TiTANBehaves(format: string -> string)
    ensures EntryBehaves("DT TiTAN", TiTAN(), format)
  {
    var m := Create(TiTAN()).value;
    assert m.magnet[0].fieldStrength == "2.9 kG";
    CoreOfOneType(m, Neodymium);
  }

  /** Every entry of the registry behaves as `EntryBehaves` says. */
  lemma MagnetRegistry(format: string -> string)
    ensures forall i :: 0 <= i < |MagnetImplantMap| ==>
      EntryBehaves(MagnetImplantMap[i].0, MagnetImplantMap[i].1, format)
  {
    forall i | 0 <= i < |MagnetImplantMap|
      ensures EntryBehaves(MagnetImplantMap[i].0, MagnetImplantMap[i].1, format)
    {
      if i == 0 {
        GlassCasedBehaves("DT xG3 v1", Axial, format);
      } else if i == 1 {
        GlassCasedBehaves("DT xG3 v2", Diametric, format);
      } else {
        TiTANBehaves(format);
      }
    }
  }

  /** The number in "2.9 kG" is the run "2.9" at its start, with no comma to remove. */
  lemma TiTANNumberRun()
    ensures FirstNumberRun("2.9 kG") == Some((0, 3))
    ensures "2.9 kG"[0..3] == "2.9" && RemoveCommas("2.9") == "2.9"
  {
    var s := "2.9 kG";
    assert IsNumChar(s[0]) && IsNumChar(s[1]) && IsNumChar(s[2]) && !IsNumChar(s[3]);
    assert NextNumChar(s, 0) == 0;
    assert RunEnd(s, 2) == 3;
    assert RunEnd(s, 0) == 3;
    assert RemoveCommas("2.9") == "2.9" by {
      assert "2.9"[..2] == "2." && "2."[..1] == "2" && "2"[..0] == [];
    }
  }

  /** "2.9 kG": the number is formatted and the unit is kept. */
  lemma TiTANFieldStrength(format: string -> string)
    ensures NumberToLocalizedNumber("2.9 kG", format) == format("2.9") + " kG"
  {
    TiTANNumberRun();
    assert !ParsesToNaN("2.9");
    assert "2.9 kG"[..0] == [] && "2.9 kG"[3..] == " kG";
  }

  /** The encapsulation lines of the registry: glass and titanium casings, with the doubled space. */
  lemma RegistryEncapsulation()
    ensures SummaryEncapsulation(Create(GlassCased("DT xG3 v1", Axial)).value).value == "Glass  Encased"
    ensures SummaryEncapsulation(Create(TiTAN()).value).value == "Titanium  Encased"
  {
  }
}
