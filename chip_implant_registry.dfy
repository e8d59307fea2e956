/**
 * `CHIP_IMPLANT_MAP` (app/models/chip_implant.ts): the catalogue of chip
 * implants, keyed by product name, and what the summary rules give for
 * some of its products.
 */
module ChipImplantRegistry {
  import opened Wrappers
  import opened Shapes
  import opened Js
  import opened Chips
  import opened ChipImplants
  import opened ChipImplantExamples

  /** A registry entry's constructor argument. */
  function Meta(name: string, modType: Option<string>, chips: seq<Chip>, installMethod: Option<string>,
                formFactor: Option<string>, features: Option<map<string, Descriptor>>): ChipImplantMeta {
    ChipImplantMeta(Some(name), modType, Some(chips), installMethod, formFactor, features)
  }

  /** A blink descriptor with its LED type and colours. */
  function Blink(ledType: string, colors: seq<string>): Descriptor {
    Descriptor(map["supported" := Flag(true), "type" := Text(ledType), "available_colors" := Texts(colors)], Unlisted)
  }

  const Chip_ := Some("Chip")
  const Injectable := Some("Injectable")
  const Needle := Some("4g Needle")
  const Scalpel := Some("Scalpel")
  const Flex := Some("flex")
  const XSeries := Some("x-Series")

  /** The registry, key and constructor argument, in declaration order. */
  const ChipImplantMap: seq<(string, ChipImplantMeta)> :=
    Registry1 + Registry2 + Registry3 + Registry4 + Registry5

  const Registry1: seq<(string, ChipImplantMeta)> := [
    ("FlexClass", ChipImplantMeta(Some("FlexClass"), None, Some([]), None, None, None)),
    ("DT flexEM", Meta("DT flexEM", None, [ChipMapT5577()], Scalpel, Flex, None)),
    ("DT flexDF", Meta("DT flexDF", None, [DESFireEV1()], Needle, None, None)),
    ("DT flexDF2", Meta("DT flexDF2", None, [DESFireEV2()], Needle, None, None)),
    ("DT flexM1 G1a", Meta("DT flexM1 G1a", None, [MagicMIFAREg1a()], Needle, Flex, None)),
    ("DT flexM1 G2", Meta("DT flexM1 G2", None, [ChipMapMagicG2()], Needle, Flex, None))
  ]

  const Registry2: seq<(string, ChipImplantMeta)> := [
    ("DT flexNT", Meta("DT flexNT", None, [NTAG216()], Scalpel, Flex, None)),
    ("DT flexSecure", Meta("DT flexSecure", Chip_, [P71("P71", NoOverrides)], Needle, Flex, None)),
    ("DT flexUG4", Meta("DT flexUG4", Chip_, [UltimateGen4()], Needle, Flex, None)),
    ("DT Payment Conversion", Meta("DT Payment Conversion", Chip_, [PaymentChip()], None, Flex, None)),
    ("DT NExT", Meta("DT NExT", Chip_, [NTAG216(), ChipMapT5577()], Injectable, XSeries, None)),
    ("DT xBT", XBTMeta)
  ]

  const Registry3: seq<(string, ChipImplantMeta)> := [
    ("DT xEM", Meta("DT xEM", Chip_, [ChipMapT5577()], Injectable, XSeries, None)),
    ("DT xLED HF", ChipImplantMeta(Some("DT xLED HF"), Some("xLED"), None, Injectable, XSeries,
       Some(map["blink" := Blink("HF", ["red", "green", "blue", "white"])]))),
    ("DT xLED LF", ChipImplantMeta(Some("DT xLED LF"), Some("xLED"), None, Injectable, XSeries,
       Some(map["blink" := Blink("LF", ["red", "green", "blue", "white"])]))),
    ("DT xM1+", Meta("DT xM1+", Chip_, [MagicMIFAREg1a()], Injectable, XSeries, None)),
    ("DT xM1 G2", Meta("DT xM1 G2", None, [ChipMapMagicG2()], None, None, None)),
    ("DT xMagic G1a", Meta("DT xMagic G1a", Chip_, [MagicMIFAREg1a(), ChipMapT5577()], Injectable, XSeries, None))
  ]

  const Registry4: seq<(string, ChipImplantMeta)> := [
    ("DT xMagic G2", Meta("DT xMagic G2", Chip_, [ChipMapMagicG2(), ChipMapT5577()], Injectable, XSeries, None)),
    ("DT xNT", Meta("DT xNT", Chip_, [NTAG216()], Injectable, XSeries, None)),
    ("DT xSIID", Meta("DT xSIID", Chip_, [NTAGI2C()], Injectable, XSeries,
       Some(map["blink" := Blink("HF", ["red", "green", "blue", "white", "amber"])]))),
    ("DT xSLX", Meta("DT xSLX", None, [ICODESLIX2()], None, None, None)),
    ("DT xDF", Meta("DT xDF", None, [DESFireEV1()], None, None, None)),
    ("DT xDF2", Meta("DT xDF2", None, [DESFireEV2()], None, None, None))
  ]

  const Registry5: seq<(string, ChipImplantMeta)> := [
    ("DT xDF3", Meta("DT xDF3", None, [DESFireEV3()], None, None, None)),
    ("VivoKey Apex Flex", Meta("VivoKey Apex Flex", Chip_, [FidesmoP71()], Needle, Flex, None)),
    ("VivoKey Apex Mega", Meta("VivoKey Apex Mega", Chip_, [FidesmoP71()], Scalpel, Flex, None)),
    ("VivoKey Spark1", Meta("VivoKey Spark1", None, [ICODEDNA(true)], None, None, None)),
    ("DT NExT v2", NExTv2Meta)
  ]

  /** The DT xBT entry's argument. */
  const XBTMeta := Meta("DT xBT", Chip_, [DestronFearing()], Injectable, XSeries, None)

  /** The DT NExT v2 entry's argument. */
  const NExTv2Meta := Meta("DT NExT v2", None, [NTAGI2C(), ChipMapT5577()], None, None,
    Some(map["blink" := Blink("HF", ["green", "blue", "white"])]))

  /** Each entry of `s` builds an implant with a name, and that name is the entry's key. */
  predicate KeysAreNames(s: seq<(string, ChipImplantMeta)>) {
    forall i :: 0 <= i < |s| ==> NameGiven(s[i].1.name) && s[i].1.name.value == s[i].0
  }

  lemma Registry1KeysAreNames()
    ensures KeysAreNames(Registry1)
  {
  }

  lemma Registry2KeysAreNames()
    ensures KeysAreNames(Registry2)
  {
  }

  lemma Registry3KeysAreNames()
    ensures KeysAreNames(Registry3)
  {
  }

  lemma Registry4KeysAreNames()
    ensures KeysAreNames(Registry4)
  {
  }

  lemma Registry5KeysAreNames()
    ensures KeysAreNames(Registry5)
  {
  }

  /** Entries whose keys are their names stay so when two lists of them are joined. */
  lemma KeysAreNamesAppend(a: seq<(string, ChipImplantMeta)>, b: seq<(string, ChipImplantMeta)>)
    requires KeysAreNames(a) && KeysAreNames(b)
    ensures KeysAreNames(a + b)
  {
  }

  /** Every key is the name of the implant its entry builds, and that name is never empty. */
  lemma RegistryKeysAreNames()
    ensures KeysAreNames(ChipImplantMap)
  {
    Registry1KeysAreNames();
    Registry2KeysAreNames();
    Registry3KeysAreNames();
    Registry4KeysAreNames();
    Registry5KeysAreNames();
    KeysAreNamesAppend(Registry1, Registry2);
    KeysAreNamesAppend(Registry1 + Registry2, Registry3);
    KeysAreNamesAppend(Registry1 + Registry2 + Registry3, Registry4);
    KeysAreNamesAppend(Registry1 + Registry2 + Registry3 + Registry4, Registry5);
  }

  /** Some entry of `registry` has the key `key`. */
  predicate Registered(registry: seq<(string, ChipImplantMeta)>, key: string) {
    exists i :: 0 <= i < |registry| && registry[i].0 == key
  }

  /** Looks `key` up in `registry` and builds a fresh implant from its entry, or nothing for an unknown key. */
  method BuildFrom(registry: seq<(string, ChipImplantMeta)>, key: string) returns (r: Option<ChipImplant>)
    requires KeysAreNames(registry)
    ensures r.Some? <==> Registered(registry, key)
    ensures r.Some? ==> fresh(r.value) && r.value.name == key
  {
    var i := 0;
    while i < |registry|
      invariant 0 <= i <= |registry|
      invariant forall k :: 0 <= k < i ==> registry[k].0 != key
    {
      if registry[i].0 == key {
        var implant := new ChipImplant(registry[i].1);
        return Some(implant);
      }
      i := i + 1;
    }
    return None;
  }

  /** `CHIP_IMPLANT_MAP[key]()`: builds a fresh implant named `key`, or nothing for an unknown key. */
  method Build(key: string) returns (r: Option<ChipImplant>)
    ensures r.Some? <==> Registered(ChipImplantMap, key)
    ensures r.Some? ==> fresh(r.value) && r.value.name == key
  {
    RegistryKeysAreNames();
    r := BuildFrom(ChipImplantMap, key);
  }

  // ---------------------------------------------------------------
  // What the summary rules give for two registered products
  // ---------------------------------------------------------------

  /** DT xBT: the Destron Fearing chip reports a temperature sensor. */
  lemma XBTSensors()
    ensures XBTMeta.chip == Some([DestronFearing()])
    ensures SensorsLine([DestronFearing()], MergedFeatures(XBTMeta)) ==
      Some(SummaryLine("Sensors", "Has temperature sensor"))
  {
    assert TemperatureSupported(DestronFearing());
    LoneTemperatureChip(XBTMeta, DestronFearing());
  }

  /** DT NExT v2: with two chips the blink line names the first one. */
  lemma NExTv2Blink()
    ensures NExTv2Meta.chip == Some([NTAGI2C(), ChipMapT5577()])
    ensures BlinkLine([NTAGI2C(), ChipMapT5577()], MergedFeatures(NExTv2Meta)) ==
      Some(SummaryLine("Blink", "NTAGI2C"))
  {
    BlinkOfPair(NExTv2Meta, NTAGI2C(), ChipMapT5577());
  }
}
