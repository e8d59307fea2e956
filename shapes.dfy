/**
 * The shapes of the values the implant model passes around: the untyped
 * feature bags of mod.ts (`FeatureType`, `FeatureSupportedInterface`), the
 * chip record of chip.ts (`ChipInterface`) and the `SummaryLine` pair.
 */
module Shapes {
  import Js

  /** A value stored under an attribute of a feature descriptor. */
  datatype Attr = Flag(b: bool) | Text(s: string) | Texts(items: seq<string>)

  /** JavaScript truthiness of an attribute value (an array is always truthy). */
  predicate Truthy(a: Attr) {
    match a
    case Flag(b) => b
    case Text(s) => s != ""
    case Texts(_) => true
  }

  /** `String(a)` */
  function AttrString(a: Attr): string {
    match a
    case Flag(b) => if b then "true" else "false"
    case Text(s) => s
    case Texts(items) => Js.Join(items, ",")
  }

  /** The `chips` attribute of a magic descriptor: absent, or an array. */
  datatype Virtual = Unlisted | Listed(chips: seq<Chip>)

  /**
   * A feature descriptor `{ supported: ..., ... }`: its attributes other
   * than `chips`, and the `chips` array a magic descriptor carries.
   */
  datatype Descriptor = Descriptor(attrs: map<string, Attr>, virtual: Virtual)

  /** `d.supported` is truthy; a descriptor without the key is unsupported. */
  predicate Supported(d: Descriptor) {
    "supported" in d.attrs && Truthy(d.attrs["supported"])
  }

  /** `{ ...base, ...over }`: every key of `over` wins, the other keys of `base` stay. */
  function Spread(base: Descriptor, over: Descriptor): (r: Descriptor)
    ensures r.attrs.Keys == base.attrs.Keys + over.attrs.Keys
    ensures forall k :: k in over.attrs ==> r.attrs[k] == over.attrs[k]
    ensures forall k :: k in base.attrs && k !in over.attrs ==> r.attrs[k] == base.attrs[k]
    ensures r.virtual == (if over.virtual.Listed? then over.virtual else base.virtual)
  {
    Descriptor(base.attrs + over.attrs, if over.virtual.Listed? then over.virtual else base.virtual)
  }

  /** `{}` */
  const Empty := Descriptor(map[], Unlisted)

  /** `{ supported: false }` */
  const Unsupported := Descriptor(map["supported" := Flag(false)], Unlisted)

  /** `{ supported: true }` */
  const SupportedOnly := Descriptor(map["supported" := Flag(true)], Unlisted)

  /** `m[k] ?? d` */
  function GetOr(m: map<string, Descriptor>, k: string, d: Descriptor): Descriptor {
    if k in m then m[k] else d
  }

  /** The `Frequency` string union. */
  datatype Frequency = MHz13_56 | KHz125 | KHz134

  function FrequencyName(f: Frequency): string {
    match f
    case MHz13_56 => "13.56 MHz"
    case KHz125 => "125 kHz"
    case KHz134 => "134 kHz"
  }

  datatype Band = LF | HF

  /** `FREQ_MAP`, keyed by the frequency strings. */
  const FreqMap: map<string, Band> := map["13.56 MHz" := HF, "125 kHz" := LF, "134 kHz" := LF]

  /** `FREQ_MAP[f]`: defined for every frequency, 13.56 MHz is HF and both kHz bands LF. */
  function BandOf(f: Frequency): (b: Band)
    ensures b == HF <==> f == MHz13_56
  {
    assert FrequencyName(f) in FreqMap;
    FreqMap[FrequencyName(f)]
  }

  /** The `ChipUID` string union. */
  datatype ChipUid = Uid4B | Uid7B | Uid8B | Uid26b | Uid37b | Uid40b | Uid64b

  /** The `ISOStandards` string union. */
  datatype IsoStandard = Iso14443a | Iso14443b | Iso15693 | Iso11784 | Iso11785 | Iso7816 | Iso18000_3

  function IsoName(i: IsoStandard): string {
    match i
    case Iso14443a => "14443a"
    case Iso14443b => "14443b"
    case Iso15693 => "15693"
    case Iso11784 => "11784"
    case Iso11785 => "11785"
    case Iso7816 => "7816"
    case Iso18000_3 => "18000-3"
  }

  /** `ChipFeaturesInterface`: the fixed keys of a chip's feature record. */
  datatype ChipFeatures = ChipFeatures(
    iso: seq<IsoStandard>,
    payment: Descriptor,
    ndef: Descriptor,
    powerHarvesting: Descriptor,
    jcop: Descriptor,
    temperature: Descriptor,
    spark: Descriptor,
    cryptographic: Descriptor,
    magic: Descriptor)

  /** `ChipInterface`; `declaredFrequency` is the `_frequency` field. */
  datatype Chip = Chip(
    name: string,
    uidLength: seq<ChipUid>,
    declaredFrequency: seq<Frequency>,
    features: ChipFeatures)

  /** `{ feature, value }` */
  datatype SummaryLine = SummaryLine(feature: string, value: string)
}
