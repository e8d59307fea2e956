/**
 * The chip catalogue of app/models/chip.ts: the `Chip` constructor with its
 * default feature record, the effective `frequency` of a chip (a magic chip
 * takes its frequencies from the chips it emulates), the catalogue classes
 * and `CHIP_MAP`.
 */
module Chips {
  import opened Wrappers
  import opened Shapes
  import opened Js

  /** `Partial<ChipFeaturesInterface>`: each key either given or absent. */
  datatype ChipOverrides = ChipOverrides(
    iso: Option<seq<IsoStandard>>,
    payment: Option<Descriptor>,
    ndef: Option<Descriptor>,
    powerHarvesting: Option<Descriptor>,
    jcop: Option<Descriptor>,
    temperature: Option<Descriptor>,
    spark: Option<Descriptor>,
    cryptographic: Option<Descriptor>,
    magic: Option<Descriptor>)

  /** No `features` argument. */
  const NoOverrides := ChipOverrides(None, None, None, None, None, None, None, None, None)

  /** The key of `later` when it has one, otherwise the key of `earlier`. */
  function Pick<T>(earlier: Option<T>, later: Option<T>): Option<T> {
    if later.Some? then later else earlier
  }

  /** `{ ...earlier, ...later }` on two partial feature records. */
  function Override(earlier: ChipOverrides, later: ChipOverrides): ChipOverrides {
    ChipOverrides(
      Pick(earlier.iso, later.iso),
      Pick(earlier.payment, later.payment),
      Pick(earlier.ndef, later.ndef),
      Pick(earlier.powerHarvesting, later.powerHarvesting),
      Pick(earlier.jcop, later.jcop),
      Pick(earlier.temperature, later.temperature),
      Pick(earlier.spark, later.spark),
      Pick(earlier.cryptographic, later.cryptographic),
      Pick(earlier.magic, later.magic))
  }

  /** The record every chip starts from: no ISO tags, every feature `{ supported: false }`. */
  const DefaultChipFeatures := ChipFeatures([], Unsupported, Unsupported, Unsupported, Unsupported,
                                            Unsupported, Unsupported, Unsupported, Unsupported)

  /**
   * The `Chip` constructor: scalar UID length and frequency arguments
   * become one-element lists, and the given feature keys replace the
   * defaults key by key.
   */
  function NewChip(name: string, uid: OneOrMany<ChipUid>, freq: OneOrMany<Frequency>,
                   o: ChipOverrides): (c: Chip)
    ensures c.name == name
    ensures uid.One? ==> c.uidLength == [uid.item]
    ensures uid.Many? ==> c.uidLength == uid.items
    ensures freq.One? ==> c.declaredFrequency == [freq.item]
    ensures freq.Many? ==> c.declaredFrequency == freq.items
    ensures c.features.iso == (if o.iso.Some? then o.iso.value else [])
    ensures o.payment.None? ==> c.features.payment == Unsupported
    ensures o.payment.Some? ==> c.features.payment == o.payment.value
    ensures o.ndef.None? ==> c.features.ndef == Unsupported
    ensures o.ndef.Some? ==> c.features.ndef == o.ndef.value
    ensures o.powerHarvesting.None? ==> c.features.powerHarvesting == Unsupported
    ensures o.powerHarvesting.Some? ==> c.features.powerHarvesting == o.powerHarvesting.value
    ensures o.jcop.None? ==> c.features.jcop == Unsupported
    ensures o.jcop.Some? ==> c.features.jcop == o.jcop.value
    ensures o.temperature.None? ==> c.features.temperature == Unsupported
    ensures o.temperature.Some? ==> c.features.temperature == o.temperature.value
    ensures o.spark.None? ==> c.features.spark == Unsupported
    ensures o.spark.Some? ==> c.features.spark == o.spark.value
    ensures o.cryptographic.None? ==> c.features.cryptographic == Unsupported
    ensures o.cryptographic.Some? ==> c.features.cryptographic == o.cryptographic.value
    ensures o.magic.None? ==> c.features.magic == Unsupported
    ensures o.magic.Some? ==> c.features.magic == o.magic.value
  {
    var d := DefaultChipFeatures;
    Chip(name, AsArray(uid), AsArray(freq),
      ChipFeatures(
        o.iso.GetOr(d.iso),
        o.payment.GetOr(d.payment),
        o.ndef.GetOr(d.ndef),
        o.powerHarvesting.GetOr(d.powerHarvesting),
        o.jcop.GetOr(d.jcop),
        o.temperature.GetOr(d.temperature),
        o.spark.GetOr(d.spark),
        o.cryptographic.GetOr(d.cryptographic),
        o.magic.GetOr(d.magic)))
  }

  /** `magic.supported` is truthy. */
  predicate IsMagic(c: Chip) {
    Supported(c.features.magic)
  }

  /**
   * The `frequency` getter: the declared list for an ordinary chip, and the
   * frequencies of the emulated chips, in order, for a magic one.
   */
  function EffectiveFrequency(c: Chip): seq<Frequency>
    decreases c
  {
    if IsMagic(c) then
      match c.features.magic.virtual
      case Unlisted => []
      case Listed(cs) => EffectiveFrequencies(cs)
    else c.declaredFrequency
  }

  /** `cs.map((c) => c.frequency).flat()` */
  function EffectiveFrequencies(cs: seq<Chip>): seq<Frequency>
    decreases cs
  {
    if cs == [] then []
    else EffectiveFrequencies(cs[..|cs| - 1]) + EffectiveFrequency(cs[|cs| - 1])
  }

  /** A frequency of a chip list is a frequency of one of its chips, and every such frequency is listed. */
  lemma {:induction false} FrequenciesMembership(cs: seq<Chip>)
    ensures forall f :: f in EffectiveFrequencies(cs) <==> exists i :: 0 <= i < |cs| && f in EffectiveFrequency(cs[i])
    decreases |cs|
  {
    if cs != [] {
      var init := cs[..|cs| - 1];
      FrequenciesMembership(init);
      assert forall i :: 0 <= i < |init| ==> init[i] == cs[i];
    }
  }

  /** Each chip's effective frequency list, in order. */
  function FrequencyLists(cs: seq<Chip>): (r: seq<seq<Frequency>>)
    ensures |r| == |cs|
    ensures forall i :: 0 <= i < |cs| ==> r[i] == EffectiveFrequency(cs[i])
  {
    seq(|cs|, i requires 0 <= i < |cs| => EffectiveFrequency(cs[i]))
  }

  /** The recursive definition agrees with `map` followed by `flat`. */
  lemma {:induction false} FrequenciesAreFlatMap(cs: seq<Chip>)
    ensures EffectiveFrequencies(cs) == Flatten(FrequencyLists(cs))
  {
    if cs != [] {
      var init := cs[..|cs| - 1];
      FrequenciesAreFlatMap(init);
      assert FrequencyLists(cs) == FrequencyLists(init) + [EffectiveFrequency(cs[|cs| - 1])];
      FlattenAppend(FrequencyLists(init), [EffectiveFrequency(cs[|cs| - 1])]);
      assert Flatten([EffectiveFrequency(cs[|cs| - 1])]) == EffectiveFrequency(cs[|cs| - 1]);
    }
  }

  /** Appending one chip appends its frequencies. */
  lemma FrequenciesSnoc(cs: seq<Chip>, c: Chip)
    ensures EffectiveFrequencies(cs + [c]) == EffectiveFrequencies(cs) + EffectiveFrequency(c)
  {
    assert (cs + [c])[..|cs|] == cs;
  }

  /** The frequencies of a concatenation of chip lists concatenate. */
  lemma {:induction false} FrequenciesAppend(a: seq<Chip>, b: seq<Chip>)
    ensures EffectiveFrequencies(a + b) == EffectiveFrequencies(a) + EffectiveFrequencies(b)
    decreases |b|
  {
    if b == [] {
      assert a + b == a;
    } else {
      var b' := b[..|b| - 1];
      var last := b[|b| - 1];
      assert b == b' + [last];
      assert a + b == (a + b') + [last];
      FrequenciesSnoc(a + b', last);
      FrequenciesSnoc(b', last);
      FrequenciesAppend(a, b');
    }
  }

  // ---------------------------------------------------------------
  // Catalogue
  // ---------------------------------------------------------------

  /** `{ supported: true, ...attrs }` */
  function SupportedWith(attrs: map<string, Attr>): Descriptor {
    Descriptor(map["supported" := Flag(true)] + attrs, Unlisted)
  }

  /** A magic descriptor emulating `chips`. */
  function MagicOf(invokedBy: seq<string>, chips: seq<Chip>): Descriptor {
    Descriptor(map["supported" := Flag(true), "invoked_by" := Texts(invokedBy)], Listed(chips))
  }

  /** A cryptographic descriptor. */
  function Crypto(auth: seq<string>, enc: seq<string>, secureMessaging: bool, signature: bool,
                  keyManagement: string): Descriptor {
    SupportedWith(map[
      "auth_methods" := Texts(auth),
      "encryption_algorithms" := Texts(enc),
      "secure_messaging" := Flag(secureMessaging),
      "signature_support" := Flag(signature),
      "key_management" := Text(keyManagement),
      "clone_protection" := Flag(true)])
  }

  function NdefWith(capacity: string): Descriptor {
    SupportedWith(map["capacity" := Text(capacity)])
  }

  function USPetChip(): Chip {
    NewChip("US Pet Chip", One(Uid64b), One(KHz134),
      NoOverrides.(iso := Some([Iso11784, Iso11785])))
  }

  function DestronFearing(): Chip {
    NewChip("Destron Fearing", One(Uid64b), One(KHz134),
      NoOverrides.(iso := Some([Iso11784, Iso11785]), temperature := Some(SupportedOnly)))
  }

  function EM410x(): Chip {
    NewChip("EM410x", One(Uid64b), One(KHz134), NoOverrides)
  }

  function HIDProx(): Chip {
    NewChip("HIDProx", One(Uid64b), One(KHz134), NoOverrides)
  }

  function AWID(): Chip {
    NewChip("AWID", One(Uid64b), One(KHz134), NoOverrides)
  }

  function Hitag2048(): Chip {
    NewChip("Hitag 2048", Many([Uid64b]), Many([KHz125]),
      NoOverrides.(cryptographic := Some(Crypto(["Proprietary"], ["Proprietary"], false, false, "Static"))))
  }

  function Indala(): Chip {
    NewChip("Indala", One(Uid26b), One(KHz125), NoOverrides)
  }

  function Keri(): Chip {
    NewChip("Keri", One(Uid26b), One(KHz125), NoOverrides)
  }

  /** The LF chips a T5577 emulates, in declaration order. */
  function T5577Emulated(): seq<Chip> {
    [EM410x(), HIDProx(), AWID(), Indala(), Keri(), USPetChip()]
  }

  /**
   * The `T5577` class: a chip built with no UID length, no frequency and
   * default features, whose magic descriptor is then updated in place.
   */
  method NewT5577() returns (c: Chip)
    ensures c == ChipMapT5577()
  {
    c := NewChip("T5577", Many([]), Many([]), NoOverrides);
    c := c.(name := "T5577");
    var magic := c.features.magic;
    magic := magic.(attrs := magic.attrs["supported" := Flag(true)]);
    magic := magic.(attrs := magic.attrs["invoked_by" := Texts(["wake up"])]);
    magic := magic.(virtual := Listed(T5577Emulated()));
    c := c.(features := c.features.(magic := magic));
  }

  function NTAG216(): Chip {
    NewChip("NTAG216", One(Uid7B), One(MHz13_56), NoOverrides.(ndef := Some(NdefWith("888 B"))))
  }

  function NTAGI2C(): Chip {
    NewChip("NTAGI2C", One(Uid7B), One(MHz13_56),
      NoOverrides.(ndef := Some(NdefWith("1 kB")), iso := Some([Iso14443a]),
                   powerHarvesting := Some(SupportedOnly)))
  }

  /** The `P71` feature record before the caller's `features` are spread over it. */
  const P71Base := NoOverrides.(
    ndef := Some(NdefWith("32 kB")),
    jcop := Some(SupportedWith(map["version" := Text("3.0.5")])),
    iso := Some([Iso14443a, Iso7816]),
    cryptographic := Some(Crypto(["Proprietary", "Secure Channel Protocol", "UserID Session"],
                                 ["Proprietary", "RSA", "ECC", "AES", "3DES"],
                                 true, true, "Dynamic diversified keys")))

  /** `new P71(name, features)`; the class defaults are `"P71"` and no features. */
  function P71(name: string, features: ChipOverrides): Chip {
    NewChip(name, One(Uid7B), One(MHz13_56), Override(P71Base, features))
  }

  function FidesmoP71(): Chip {
    P71("Fidesmo P71", NoOverrides.(
      spark := Some(SupportedOnly),
      payment := Some(SupportedWith(map["enabled" := Flag(false)]))))
  }

  function MIFAREClassic4B(): Chip {
    NewChip("MIFARE Classic (4-byte NUID)", One(Uid4B), One(MHz13_56), NoOverrides.(iso := Some([Iso14443a])))
  }

  function MIFAREClassic7B(): Chip {
    NewChip("MIFARE Classic (7-byte UID)", One(Uid7B), One(MHz13_56), NoOverrides.(iso := Some([Iso14443a])))
  }

  /** The `DESFireEV1` feature record before the caller's `features` are spread over it. */
  const DESFireBase := NoOverrides.(
    iso := Some([Iso14443a, Iso7816]),
    ndef := Some(NdefWith("8 kB")),
    cryptographic := Some(Crypto(["DES", "2K3DES", "3K3DES", "AES"], ["DES", "3DES", "AES"],
                                 true, false, "Dynamic diversified keys")))

  /** `new DESFireEV1(ev, features)`; the class defaults are `"1"` and no features. */
  function DESFire(ev: string, features: ChipOverrides): Chip {
    NewChip("MIFARE DESFire EV" + ev, One(Uid7B), One(MHz13_56), Override(DESFireBase, features))
  }

  function DESFireEV1(): Chip { DESFire("1", NoOverrides) }

  function DESFireEV2(): Chip { DESFire("2", NoOverrides) }

  function DESFireEV3(): Chip { DESFire("3", NoOverrides) }

  function ICODESLIX2(): Chip {
    NewChip("ICODE SLIX2", One(Uid8B), One(MHz13_56),
      NoOverrides.(ndef := Some(NdefWith("320 B")), iso := Some([Iso15693, Iso18000_3])))
  }

  /** `new ICODEDNA(spark)`; the class default is `spark = true`. */
  function ICODEDNA(spark: bool): Chip {
    NewChip("ICODE DNA", One(Uid8B), One(MHz13_56), NoOverrides.(
      ndef := Some(Descriptor(map["supported" := Flag(!spark)], Unlisted)),
      cryptographic := Some(Crypto(["AES mutual authentication"], ["AES-128"], true, true,
                                   "Dynamic diversified keys")),
      iso := Some([Iso15693, Iso18000_3]),
      spark := Some(Descriptor(map["supported" := Flag(spark)], Unlisted))))
  }

  function UltimateGen4(): Chip {
    NewChip("Ultimate Gen4", Many([]), Many([]), NoOverrides.(
      magic := Some(MagicOf(["wake up", "direct write"],
                            [NTAG216(), NTAGI2C(), MIFAREClassic4B(), MIFAREClassic7B()]))))
  }

  function MagicMIFAREg1a(): Chip {
    NewChip("Magic MIFARE Classic gen1a", Many([]), Many([]), NoOverrides.(
      magic := Some(MagicOf(["wake up"], [MIFAREClassic4B()]))))
  }

  function PaymentChip(): Chip {
    NewChip("Payment Chip", Many([]), Many([MHz13_56]), NoOverrides.(
      payment := Some(SupportedWith(map["enabled" := Flag(true)])),
      iso := Some([Iso14443a, Iso7816])))
  }

  /** `CHIP_MAP["T5577"]()` */
  function ChipMapT5577(): Chip {
    NewChip("T5577", Many([]), Many([]), NoOverrides.(
      magic := Some(MagicOf(["wake up"], T5577Emulated()))))
  }

  /** `CHIP_MAP["Magic MIFARE Classic G2"]()` */
  function ChipMapMagicG2(): Chip {
    NewChip("Magic MIFARE Classic G2", Many([]), Many([]), NoOverrides.(
      magic := Some(MagicOf(["wake up"], [MIFAREClassic4B()]))))
  }

  const ChipMapKeys: seq<string> := ["T5577", "Magic MIFARE Classic G2"]

  /** `CHIP_MAP[key]()`: a factory exists exactly for the two keys, and builds a chip of that name. */
  function ChipMap(key: string): (r: Option<Chip>)
    ensures r.Some? <==> key in ChipMapKeys
    ensures r.Some? ==> r.value.name == key
  {
    if key == "T5577" then Some(ChipMapT5577())
    else if key == "Magic MIFARE Classic G2" then Some(ChipMapMagicG2())
    else None
  }

  // ---------------------------------------------------------------
  // Catalogue properties
  // ---------------------------------------------------------------

  /** The frequencies of a one-chip list are that chip's own. */
  lemma FrequenciesOfOne(a: Chip)
    ensures EffectiveFrequencies([a]) == EffectiveFrequency(a)
  {
    assert [a][..0] == [];
  }

  // One more chip at the end of a short list appends its frequencies.

  lemma SnocFrequencies2(a: Chip, b: Chip)
    ensures EffectiveFrequencies([a, b]) == EffectiveFrequencies([a]) + EffectiveFrequency(b)
  {
    assert [a, b][..1] == [a];
  }

  lemma SnocFrequencies3(a: Chip, b: Chip, c: Chip)
    ensures EffectiveFrequencies([a, b, c]) == EffectiveFrequencies([a, b]) + EffectiveFrequency(c)
  {
    assert [a, b, c][..2] == [a, b];
  }

  lemma SnocFrequencies4(a: Chip, b: Chip, c: Chip, d: Chip)
    ensures EffectiveFrequencies([a, b, c, d]) == EffectiveFrequencies([a, b, c]) + EffectiveFrequency(d)
  {
    assert [a, b, c, d][..3] == [a, b, c];
  }

  lemma SnocFrequencies5(a: Chip, b: Chip, c: Chip, d: Chip, e: Chip)
    ensures EffectiveFrequencies([a, b, c, d, e]) == EffectiveFrequencies([a, b, c, d]) + EffectiveFrequency(e)
  {
    assert [a, b, c, d, e][..4] == [a, b, c, d];
  }

  lemma SnocFrequencies6(a: Chip, b: Chip, c: Chip, d: Chip, e: Chip, f: Chip)
    ensures EffectiveFrequencies([a, b, c, d, e, f]) == EffectiveFrequencies([a, b, c, d, e]) + EffectiveFrequency(f)
  {
    assert [a, b, c, d, e, f][..5] == [a, b, c, d, e];
  }

  /** The frequencies of four chips, in order. */
  lemma FrequenciesOfFour(a: Chip, b: Chip, c: Chip, d: Chip)
    ensures EffectiveFrequencies([a, b, c, d]) ==
      EffectiveFrequency(a) + EffectiveFrequency(b) + EffectiveFrequency(c) + EffectiveFrequency(d)
  {
    FrequenciesOfOne(a);
    SnocFrequencies2(a, b);
    SnocFrequencies3(a, b, c);
    SnocFrequencies4(a, b, c, d);
  }

  /** The frequencies of six chips: those of the first four, then the last two's. */
  lemma FrequenciesOfSix(a: Chip, b: Chip, c: Chip, d: Chip, e: Chip, f: Chip)
    ensures EffectiveFrequencies([a, b, c, d, e, f]) ==
      EffectiveFrequencies([a, b, c, d]) + EffectiveFrequency(e) + EffectiveFrequency(f)
  {
    SnocFrequencies5(a, b, c, d, e);
    SnocFrequencies6(a, b, c, d, e, f);
  }

  /** A T5577 answers on six LF frequencies, one per emulated chip. */
  lemma T5577Frequencies()
    ensures EffectiveFrequency(ChipMapT5577()) == [KHz134, KHz134, KHz134, KHz125, KHz125, KHz134]
    ensures forall f <- EffectiveFrequency(ChipMapT5577()) :: BandOf(f) == LF
  {
    FrequenciesOfFour(EM410x(), HIDProx(), AWID(), Indala());
    FrequenciesOfSix(EM410x(), HIDProx(), AWID(), Indala(), Keri(), USPetChip());
  }

  /** An Ultimate Gen4 answers on four HF frequencies. */
  lemma UltimateGen4Frequencies()
    ensures EffectiveFrequency(UltimateGen4()) == [MHz13_56, MHz13_56, MHz13_56, MHz13_56]
    ensures forall f <- EffectiveFrequency(UltimateGen4()) :: BandOf(f) == HF
  {
    FrequenciesOfFour(NTAG216(), NTAGI2C(), MIFAREClassic4B(), MIFAREClassic7B());
  }

  /** Both MIFARE Classic emulators answer on a single HF frequency. */
  lemma MagicMIFAREFrequencies()
    ensures EffectiveFrequency(MagicMIFAREg1a()) == [MHz13_56]
    ensures EffectiveFrequency(ChipMapMagicG2()) == [MHz13_56]
  {
    FrequenciesOfOne(MIFAREClassic4B());
  }

  /** `ICODEDNA(spark)` supports exactly one of NDEF and Spark, and Spark iff `spark`. */
  lemma ICODEDNAExclusive(spark: bool)
    ensures Supported(ICODEDNA(spark).features.spark) <==> spark
    ensures Supported(ICODEDNA(spark).features.ndef) <==> !spark
  {
  }

  /** A Fidesmo P71 keeps the P71 NDEF, JCOP and crypto descriptors and adds Spark and a disabled payment. */
  lemma FidesmoKeepsP71()
    ensures FidesmoP71().features.ndef == P71("P71", NoOverrides).features.ndef
    ensures FidesmoP71().features.jcop == P71("P71", NoOverrides).features.jcop
    ensures FidesmoP71().features.cryptographic == P71("P71", NoOverrides).features.cryptographic
    ensures FidesmoP71().features.iso == P71("P71", NoOverrides).features.iso
    ensures Supported(FidesmoP71().features.spark)
    ensures Supported(FidesmoP71().features.payment)
    ensures FidesmoP71().features.payment.attrs["enabled"] == Flag(false)
  {
  }
}
