/**
 * What the summary rules of `ChipImplant` (app/models/chip_implant.ts)
 * give for some catalogue products.
 *
 * Each product's line comes in two steps: a lemma over any chips with the
 * features that decide the line, and the catalogue facts saying that the
 * product's chips have those features.
 */
module ChipImplantExamples {
  import opened Wrappers
  import opened Shapes
  import opened Js
  import opened Chips
  import opened ChipImplants

  /** The NTAG216 answers on 13.56 MHz, is not magic, and has an 888-byte NDEF store but no Spark and no payment. */
  lemma NTAG216Facts()
    ensures EffectiveFrequency(NTAG216()) == [MHz13_56]
    ensures !IsMagic(NTAG216())
    ensures NdefSupported(NTAG216()) && !SparkSupported(NTAG216()) && Capacity(NTAG216()) == "888 B"
    ensures !PaymentSupported(NTAG216())
  {
  }

  /** The gen1a emulates one MIFARE Classic 4-byte chip, which answers on 13.56 MHz alone. */
  lemma MagicMIFAREg1aEmulates()
    ensures IsMagic(MagicMIFAREg1a()) && MagicMIFAREg1a().features.magic.virtual == Listed([MIFAREClassic4B()])
    ensures EffectiveFrequency(MIFAREClassic4B()) == [MHz13_56]
    ensures MIFAREClassic4B().name == "MIFARE Classic (4-byte NUID)"
  {
  }

  /** A Fidesmo P71 has Spark and a 32 kB NDEF store, and supports payment without enabling it. */
  lemma FidesmoFacts()
    ensures SparkSupported(FidesmoP71()) && NdefSupported(FidesmoP71()) && Capacity(FidesmoP71()) == "32 kB"
    ensures PaymentSupported(FidesmoP71()) && !PaymentEnabled(FidesmoP71())
  {
  }

  // ---- Magic

  lemma MagicDescriptorsOne(c: Chip)
    ensures MagicDescriptors([c]) == (if IsMagic(c) then [c.features.magic] else [])
  {
    assert [c][..0] == [];
  }

  lemma MagicDescriptorsTwo(a: Chip, b: Chip)
    ensures MagicDescriptors([a, b]) ==
      (if IsMagic(a) then [a.features.magic] else []) + (if IsMagic(b) then [b.features.magic] else [])
  {
    assert [a, b][..1] == [a];
    MagicDescriptorsOne(a);
  }

  lemma MagicBucketTwo(d: Descriptor, e: Descriptor, b: Band)
    requires d.virtual.Listed? && e.virtual.Listed?
    ensures MagicBucket([d, e], b) == Bucket(d.virtual.chips, b) + Bucket(e.virtual.chips, b)
  {
    assert [d, e][..1] == [d] && [d, e][1] == e;
    MagicBucketOne(d, b);
  }

  lemma MagicBucketOne(d: Descriptor, b: Band)
    requires d.virtual.Listed?
    ensures MagicBucket([d], b) == Bucket(d.virtual.chips, b)
  {
    assert [d][..0] == [];
  }

  /** A chip answering on 13.56 MHz alone fills one HF entry and no LF entry. */
  lemma SingleHFBucket(v: Chip)
    requires EffectiveFrequency(v) == [MHz13_56]
    ensures Bucket([v], HF) == [v]
    ensures Bucket([v], LF) == []
  {
    var fs := EffectiveFrequency(v);
    BucketOfOne(v, HF);
    BucketOfOne(v, LF);
    assert Pushes(v, fs, HF) == Pushes(v, [], HF) + [v] by { assert fs[..0] == []; }
    assert Pushes(v, fs, LF) == Pushes(v, [], LF) by { assert fs[..0] == []; }
  }

  /** A bucket over one emulated chip holds that chip's own entries. */
  lemma BucketOfOne(v: Chip, b: Band)
    ensures Bucket([v], b) == Pushes(v, EffectiveFrequency(v), b)
  {
    assert [v][..0] == [];
  }

  /** The T5577's emulated chips fill six LF entries and no HF entry. */
  lemma T5577Bucket()
    ensures |Bucket(T5577Emulated(), LF)| == 6
    ensures Bucket(T5577Emulated(), HF) == []
  {
    T5577Frequencies();
    BucketSingleBand(T5577Emulated(), LF);
  }

  /** A magic chip whose emulated chips fill several LF entries and no HF entry. */
  predicate ManyLFEmulator(t: Chip) {
    IsMagic(t) && t.features.magic.virtual.Listed? &&
    |Bucket(t.features.magic.virtual.chips, LF)| > 1 && Bucket(t.features.magic.virtual.chips, HF) == []
  }

  /** The T5577 is magic and lists the six chips it emulates. */
  lemma T5577Magic()
    ensures IsMagic(ChipMapT5577()) && ChipMapT5577().features.magic.virtual == Listed(T5577Emulated())
  {
  }

  /** The T5577 fills several LF entries and no HF entry. */
  lemma T5577ManyLF()
    ensures ManyLFEmulator(ChipMapT5577())
  {
    T5577Magic();
    T5577Bucket();
  }

  /** A lone magic chip emulating several LF entries shows "Many": one chip gets no band. */
  lemma LoneManyLF(t: Chip)
    requires ManyLFEmulator(t)
    ensures MagicLine([t]) == Some(SummaryLine("Magic", "Many"))
  {
    MagicDescriptorsOne(t);
    MagicBucketOne(t.features.magic, LF);
    MagicBucketOne(t.features.magic, HF);
  }

  /** A chip that is not magic, then one emulating several LF entries: two chips, so the label gets its band. */
  lemma PlainThenManyLF(n: Chip, t: Chip)
    requires !IsMagic(n) && ManyLFEmulator(t)
    ensures MagicLine([n, t]) == Some(SummaryLine("Magic", "Many LF"))
  {
    MagicDescriptorsTwo(n, t);
    MagicBucketOne(t.features.magic, LF);
    MagicBucketOne(t.features.magic, HF);
  }

  /** A lone magic chip emulating one named chip on 13.56 MHz alone shows that chip's name. */
  lemma LoneSingleHF(g: Chip, v: Chip)
    requires IsMagic(g) && g.features.magic.virtual == Listed([v])
    requires EffectiveFrequency(v) == [MHz13_56] && v.name != ""
    ensures MagicLine([g]) == Some(SummaryLine("Magic", v.name))
  {
    MagicDescriptorsOne(g);
    var ds := [g.features.magic];
    MagicBucketOne(g.features.magic, LF);
    MagicBucketOne(g.features.magic, HF);
    SingleHFBucket(v);
    assert MagicBucket(ds, LF) == [] && MagicBucket(ds, HF) == [v];
    SingleHFValue(v);
  }

  /** A lone chip with one HF entry and no LF entry shows that entry's name. */
  lemma SingleHFValue(v: Chip)
    requires v.name != ""
    ensures MagicValue([], [v], 1) == v.name
  {
  }

  /** DT xEM (a lone T5577) shows "Many". */
  lemma XEMMagic()
    ensures MagicLine([ChipMapT5577()]) == Some(SummaryLine("Magic", "Many"))
  {
    T5577ManyLF();
    LoneManyLF(ChipMapT5577());
  }

  /** DT NExT (NTAG216 and a T5577) shows "Many LF". */
  lemma NExTMagic()
    ensures MagicLine([NTAG216(), ChipMapT5577()]) == Some(SummaryLine("Magic", "Many LF"))
  {
    NTAG216Facts();
    T5577ManyLF();
    PlainThenManyLF(NTAG216(), ChipMapT5577());
  }

  /** DT flexM1 G1a shows the name of the one chip it emulates. */
  lemma FlexM1Magic()
    ensures MagicLine([MagicMIFAREg1a()]) == Some(SummaryLine("Magic", "MIFARE Classic (4-byte NUID)"))
  {
    MagicMIFAREg1aEmulates();
    LoneSingleHF(MagicMIFAREg1a(), MIFAREClassic4B());
  }

  /**
   * Two magic chips, the first emulating a single HF chip and the second
   * several LF entries: both labels are listed, each with its band.
   */
  lemma MixedMagicPair(a: Chip, b: Chip)
    requires IsMagic(a) && IsMagic(b)
    requires a.features.magic.virtual.Listed? && b.features.magic.virtual.Listed?
    requires Bucket(a.features.magic.virtual.chips, LF) == []
    requires |Bucket(a.features.magic.virtual.chips, HF)| == 1
    requires Bucket(a.features.magic.virtual.chips, HF)[0].name != "Many"
    requires |Bucket(b.features.magic.virtual.chips, LF)| > 1
    requires Bucket(b.features.magic.virtual.chips, HF) == []
    ensures MagicLine([a, b]) ==
      Some(SummaryLine("Magic", "Many LF,\n " + Bucket(a.features.magic.virtual.chips, HF)[0].name + " HF"))
  {
    MagicDescriptorsTwo(a, b);
    MagicBucketTwo(a.features.magic, b.features.magic, LF);
    MagicBucketTwo(a.features.magic, b.features.magic, HF);
    var ds := [a.features.magic, b.features.magic];
    assert MagicDescriptors([a, b]) == ds;
    var lf, hf := MagicBucket(ds, LF), MagicBucket(ds, HF);
    assert hf == Bucket(a.features.magic.virtual.chips, HF) + [];
    assert |lf| > 1 && |hf| == 1;
    MixedValue(lf, hf, |[a, b]|);
  }

  /** One bucket of several entries and one holding a single chip: both labels, each with its band. */
  lemma MixedValue(lf: seq<Chip>, hf: seq<Chip>, n: nat)
    requires |lf| > 1 && |hf| == 1 && hf[0].name != "Many"
    ensures MagicValue(lf, hf, n) == "Many LF,\n " + hf[0].name + " HF"
  {
    assert "Many" + " LF,\n " == "Many LF,\n ";
  }

  /** DT xMagic G1a: both buckets are filled, so both labels are listed with their bands. */
  lemma XMagicG1aMagic()
    ensures MagicLine([MagicMIFAREg1a(), ChipMapT5577()]) ==
      Some(SummaryLine("Magic", "Many LF,\n " + "MIFARE Classic (4-byte NUID)" + " HF"))
  {
    MagicMIFAREg1aEmulates();
    SingleHFBucket(MIFAREClassic4B());
    T5577ManyLF();
    MixedMagicPair(MagicMIFAREg1a(), ChipMapT5577());
  }

  // ---- Frequency

  /** A chip on 13.56 MHz alone, then a chip whose first frequency is LF: the implant is dual. */
  lemma HFThenLF(a: Chip, b: Chip)
    requires EffectiveFrequency(a) == [MHz13_56]
    requires EffectiveFrequency(b) != [] && BandOf(EffectiveFrequency(b)[0]) == LF
    ensures FrequencyLine(EffectiveFrequencies([a, b])) == Some(SummaryLine("Frequency", "Dual"))
  {
    FrequenciesSnoc([], a);
    FrequenciesSnoc([a], b);
    assert [] + [a] == [a] && [a] + [b] == [a, b];
    var fs := EffectiveFrequencies([a, b]);
    assert fs[0] == MHz13_56 && fs[1] == EffectiveFrequency(b)[0];
  }

  /** DT NExT answers on both bands. */
  lemma NExTFrequency()
    ensures FrequencyLine(EffectiveFrequencies([NTAG216(), ChipMapT5577()])) == Some(SummaryLine("Frequency", "Dual"))
  {
    NTAG216Facts();
    T5577Frequencies();
    HFThenLF(NTAG216(), ChipMapT5577());
  }

  // ---- Data sharing

  lemma DataSharingTokensOne(c: Chip)
    ensures DataSharingTokens([c]) ==
      (if SparkSupported(c) then ["Spark"] else []) + (if NdefSupported(c) then [Capacity(c)] else [])
  {
    assert [c][..0] == [];
  }

  /** Two rows out of order are swapped by the sort. */
  lemma SortSwapsPair(a: string, b: string)
    requires !StrLe(a, b)
    ensures Sort([a, b]) == [b, a]
  {
    assert [a, b][1..] == [b];
    assert [b][1..] == [];
    assert Sort([b]) == [b];
    assert Insert(a, [b])[0] == b;
  }

  /** Two rows, the first sorting after the second, are shown smallest first. */
  lemma TwoRowsSwapped(chips: seq<Chip>, x: string, y: string)
    requires DataSharingTokens(chips) == [x, y]
    requires !StrLe(x, y)
    ensures DataSharingLine(chips) == Some(SummaryLine("Data Sharing", y + " / " + x))
  {
    SortSwapsPair(x, y);
  }

  /** A lone NDEF chip without Spark shows its capacity alone. */
  lemma LoneNdefChip(c: Chip)
    requires NdefSupported(c) && !SparkSupported(c)
    ensures DataSharingLine([c]) == Some(SummaryLine("Data Sharing", Capacity(c)))
  {
    DataSharingTokensOne(c);
    assert [Capacity(c)][1..] == [];
  }

  /** A lone chip with Spark and an NDEF capacity sorting before "Spark" shows the capacity first. */
  lemma LoneSparkNdefChip(c: Chip)
    requires SparkSupported(c) && NdefSupported(c) && !StrLe("Spark", Capacity(c))
    ensures DataSharingLine([c]) == Some(SummaryLine("Data Sharing", Capacity(c) + " / " + "Spark"))
  {
    DataSharingTokensOne(c);
    TwoRowsSwapped([c], "Spark", Capacity(c));
  }

  /** Two NDEF chips without Spark show their capacity twice. */
  lemma TwoNdefChips(c: Chip)
    requires NdefSupported(c) && !SparkSupported(c)
    ensures DataSharingLine([c, c]) == Some(SummaryLine("Data Sharing", Capacity(c) + " / " + Capacity(c)))
  {
    TwoNdefTokens(c);
    SortOfEqualPair(Capacity(c));
  }

  /** Each of the two chips contributes its capacity, in chip order. */
  lemma TwoNdefTokens(c: Chip)
    requires NdefSupported(c) && !SparkSupported(c)
    ensures DataSharingTokens([c, c]) == [Capacity(c), Capacity(c)]
  {
    DataSharingTokensOne(c);
    assert [c, c][..1] == [c];
  }

  /** Two equal rows are already sorted. */
  lemma SortOfEqualPair(x: string)
    ensures Sort([x, x]) == [x, x]
  {
    StrLeTotal(x, x);
    assert Sort([x]) == [x];
  }

  /** DT flexNT: the NTAG216 capacity alone. */
  lemma FlexNTDataSharing()
    ensures DataSharingLine([NTAG216()]) == Some(SummaryLine("Data Sharing", "888 B"))
  {
    NTAG216Facts();
    LoneNdefChip(NTAG216());
  }

  /** VivoKey Apex: a Fidesmo P71 has NDEF and Spark; the sorted rows put the capacity first. */
  lemma ApexDataSharing()
    ensures DataSharingLine([FidesmoP71()]) == Some(SummaryLine("Data Sharing", "32 kB" + " / " + "Spark"))
  {
    FidesmoFacts();
    assert !StrLe("Spark", "32 kB");
    LoneSparkNdefChip(FidesmoP71());
  }

  // ---- Payment

  /** A lone chip shows "Yes" when it has payment enabled, "Disabled" when it only supports it, nothing otherwise. */
  lemma LonePayment(c: Chip)
    ensures PaymentSupported(c) && PaymentEnabled(c) ==> PaymentLine([c]) == Some(SummaryLine("Payment", "Yes"))
    ensures PaymentSupported(c) && !PaymentEnabled(c) ==> PaymentLine([c]) == Some(SummaryLine("Payment", "Disabled"))
    ensures !PaymentSupported(c) ==> PaymentLine([c]) == None
  {
    assert [c][0] == c;
  }

  /** The payment line: enabled on the conversion chip, disabled on a Fidesmo P71, missing on an NTAG216. */
  lemma PaymentExamples()
    ensures PaymentLine([PaymentChip()]) == Some(SummaryLine("Payment", "Yes"))
    ensures PaymentLine([FidesmoP71()]) == Some(SummaryLine("Payment", "Disabled"))
    ensures PaymentLine([NTAG216()]) == None
  {
    assert PaymentSupported(PaymentChip()) && PaymentEnabled(PaymentChip());
    LonePayment(PaymentChip());
    FidesmoFacts();
    LonePayment(FidesmoP71());
    NTAG216Facts();
    LonePayment(NTAG216());
  }

  // ---- Sensors and blink

  /**
   * An implant built around one temperature chip, with no feature record
   * of its own, reports a temperature sensor and no pulse ox.
   */
  lemma LoneTemperatureChip(meta: ChipImplantMeta, c: Chip)
    requires meta.chip == Some([c]) && meta.features.None?
    requires TemperatureSupported(c)
    ensures SensorsLine([c], MergedFeatures(meta)) == Some(SummaryLine("Sensors", "Has temperature sensor"))
  {
    MergedKeyKept(meta, "pulse_ox");
    assert TemperatureSupported([c][0]);
  }

  /** An implant with two chips whose own record supports blink names its first chip. */
  lemma BlinkOfPair(meta: ChipImplantMeta, a: Chip, b: Chip)
    requires meta.chip == Some([a, b])
    requires meta.features.Some? && "blink" in meta.features.value && Supported(meta.features.value["blink"])
    ensures BlinkLine([a, b], MergedFeatures(meta)) == Some(SummaryLine("Blink", a.name))
  {
    MergedKeyKept(meta, "blink");
  }

}
