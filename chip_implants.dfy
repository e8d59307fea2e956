/**
 * `ChipImplant` (app/models/chip_implant.ts): an implant built from a list
 * of chips. The constructor merges the chips' supported feature
 * descriptors into the implant's own record; the summary getters turn the
 * chips into `{ feature, value }` lines.
 */
module ChipImplants {
  import opened Wrappers
  import opened Shapes
  import opened Js
  import opened Chips

  /** `Partial<ChipImplantInterface>` as passed to the constructor. */
  datatype ChipImplantMeta = ChipImplantMeta(
    name: Option<string>,
    modType: Option<string>,
    chip: Option<seq<Chip>>,
    installMethod: Option<string>,
    formFactor: Option<string>,
    features: Option<map<string, Descriptor>>)

  /** A meta record naming the implant and nothing else. */
  function Named(name: string): ChipImplantMeta {
    ChipImplantMeta(Some(name), None, None, None, None, None)
  }

  /** `name` is truthy: present and not the empty string. */
  predicate NameGiven(name: Option<string>) {
    name.Some? && name.value != ""
  }

  const NameRequired := "Chip Implant name required"

  /** The seven `{ supported: false }` entries every implant record starts with. */
  const DefaultImplantFeatures: map<string, Descriptor> := map[
    "blink" := Unsupported,
    "cryptography" := Unsupported,
    "ndef" := Unsupported,
    "spark" := Unsupported,
    "jcop" := Unsupported,
    "temperature" := Unsupported,
    "pulse_ox" := Unsupported]

  /** `Object.keys(c.features)` for every chip, in insertion order. */
  const ChipFeatureKeys: seq<string> :=
    ["iso", "payment", "ndef", "power_harvesting", "jcop", "temperature", "spark", "cryptographic", "magic"]

  /**
   * `c.features[key]` when it is a descriptor object. `iso` holds an array
   * and any other key holds nothing, so neither has a `supported` field.
   */
  function ChipDescriptor(c: Chip, key: string): (r: Option<Descriptor>)
    ensures r.Some? ==> key in ChipFeatureKeys && key != "iso"
  {
    var f := c.features;
    if key == "payment" then Some(f.payment)
    else if key == "ndef" then Some(f.ndef)
    else if key == "power_harvesting" then Some(f.powerHarvesting)
    else if key == "jcop" then Some(f.jcop)
    else if key == "temperature" then Some(f.temperature)
    else if key == "spark" then Some(f.spark)
    else if key == "cryptographic" then Some(f.cryptographic)
    else if key == "magic" then Some(f.magic)
    else None
  }

  /** `c?.features[key]?.supported` is truthy. */
  predicate Contributes(c: Chip, key: string) {
    ChipDescriptor(c, key).Some? && Supported(ChipDescriptor(c, key).value)
  }

  // ---------------------------------------------------------------
  // The construction-time merge
  // ---------------------------------------------------------------

  /** One step of the inner loop: `_features[key] = { ..._features[key], ...c.features[key] }` when supported. */
  function MergeKey(f: map<string, Descriptor>, c: Chip, key: string): map<string, Descriptor> {
    if Contributes(c, key) then f[key := Spread(GetOr(f, key, Empty), ChipDescriptor(c, key).value)]
    else f
  }

  /** The inner loop over `keys`, defined from the end so that the loop extends it. */
  function MergeKeys(f: map<string, Descriptor>, c: Chip, keys: seq<string>): map<string, Descriptor>
    decreases |keys|
  {
    if keys == [] then f
    else MergeKey(MergeKeys(f, c, keys[..|keys| - 1]), c, keys[|keys| - 1])
  }

  /** All the keys of one chip. */
  function MergeChip(f: map<string, Descriptor>, c: Chip): map<string, Descriptor> {
    MergeKeys(f, c, ChipFeatureKeys)
  }

  /** The outer loop over the chips, in order. */
  function MergeChips(f: map<string, Descriptor>, chips: seq<Chip>): map<string, Descriptor>
    decreases |chips|
  {
    if chips == [] then f
    else MergeChip(MergeChips(f, chips[..|chips| - 1]), chips[|chips| - 1])
  }

  /** `if (ndef.supported || spark.supported) data_sharing = { supported: true }` */
  function DataSharingRule(f: map<string, Descriptor>): map<string, Descriptor> {
    if Supported(GetOr(f, "ndef", Empty)) || Supported(GetOr(f, "spark", Empty))
    then f["data_sharing" := SupportedOnly]
    else f
  }

  /** The record passed to `super`: the caller's features over the seven defaults. */
  function InitialFeatures(meta: ChipImplantMeta): map<string, Descriptor> {
    DefaultImplantFeatures + meta.features.GetOr(map[])
  }

  /** The implant's `_features` once the constructor has finished. */
  function MergedFeatures(meta: ChipImplantMeta): map<string, Descriptor> {
    DataSharingRule(MergeChips(InitialFeatures(meta), meta.chip.GetOr([])))
  }

  /** Running the inner loop over distinct keys updates exactly the contributing ones among them. */
  lemma {:induction false} MergeKeysEffect(f: map<string, Descriptor>, c: Chip, keys: seq<string>)
    requires forall i, j :: 0 <= i < j < |keys| ==> keys[i] != keys[j]
    ensures forall k :: k in keys && Contributes(c, k) ==>
      k in MergeKeys(f, c, keys) &&
      MergeKeys(f, c, keys)[k] == Spread(GetOr(f, k, Empty), ChipDescriptor(c, k).value)
    ensures forall k :: !(k in keys && Contributes(c, k)) ==>
      (k in MergeKeys(f, c, keys) <==> k in f) &&
      (k in f ==> MergeKeys(f, c, keys)[k] == f[k])
    decreases |keys|
  {
    if keys != [] {
      var init := keys[..|keys| - 1];
      var last := keys[|keys| - 1];
      assert forall k :: k in keys <==> k in init || k == last;
      assert last !in init;
      MergeKeysEffect(f, c, init);
    }
  }

  /** One more key extends the inner loop by one step. */
  lemma MergeKeysStep(f: map<string, Descriptor>, c: Chip, keys: seq<string>, j: nat)
    requires j < |keys|
    ensures MergeKeys(f, c, keys[..j + 1]) == MergeKey(MergeKeys(f, c, keys[..j]), c, keys[j])
  {
    assert keys[..j + 1][..j] == keys[..j];
  }

  /**
   * Merging one chip: every key whose chip descriptor is supported becomes
   * the implant's descriptor with the chip's spread over it; every other
   * key, `iso` among them, is left as it was.
   */
  lemma MergeChipEffect(f: map<string, Descriptor>, c: Chip)
    ensures forall k :: Contributes(c, k) ==>
      k in MergeChip(f, c) && MergeChip(f, c)[k] == Spread(GetOr(f, k, Empty), ChipDescriptor(c, k).value)
    ensures forall k :: !Contributes(c, k) ==>
      (k in MergeChip(f, c) <==> k in f) && (k in f ==> MergeChip(f, c)[k] == f[k])
  {
    MergeKeysEffect(f, c, ChipFeatureKeys);
  }

  /** On a collision the later chip wins: its attributes overwrite what earlier chips put there. */
  lemma LaterChipWins(f: map<string, Descriptor>, chips: seq<Chip>, c: Chip, k: string, a: string)
    requires Contributes(c, k)
    requires a in ChipDescriptor(c, k).value.attrs
    ensures k in MergeChips(f, chips + [c])
    ensures a in MergeChips(f, chips + [c])[k].attrs
    ensures MergeChips(f, chips + [c])[k].attrs[a] == ChipDescriptor(c, k).value.attrs[a]
  {
    assert (chips + [c])[..|chips|] == chips;
    MergeChipEffect(MergeChips(f, chips), c);
  }

  /** A key that no chip supports keeps the value it had before the merge. */
  lemma {:induction false} UntouchedKey(f: map<string, Descriptor>, chips: seq<Chip>, k: string)
    requires forall i :: 0 <= i < |chips| ==> !Contributes(chips[i], k)
    ensures k in MergeChips(f, chips) <==> k in f
    ensures k in f ==> MergeChips(f, chips)[k] == f[k]
    decreases |chips|
  {
    if chips != [] {
      var init := chips[..|chips| - 1];
      UntouchedKey(f, init, k);
      MergeChipEffect(MergeChips(f, init), chips[|chips| - 1]);
    }
  }

  /**
   * Chips keep their crypto under `cryptographic`, so the implant's
   * `cryptography` entry never receives anything from a chip; the array
   * `iso` is never merged either.
   */
  lemma CryptographyNeverMerged(f: map<string, Descriptor>, chips: seq<Chip>)
    ensures "cryptography" in MergeChips(f, chips) <==> "cryptography" in f
    ensures "cryptography" in f ==> MergeChips(f, chips)["cryptography"] == f["cryptography"]
    ensures "iso" in MergeChips(f, chips) <==> "iso" in f
  {
    UntouchedKey(f, chips, "cryptography");
    UntouchedKey(f, chips, "iso");
  }

  /** Once supported, a key stays supported; and any chip supporting it makes it supported. */
  lemma {:induction false} SupportedAfterMerge(f: map<string, Descriptor>, chips: seq<Chip>, k: string)
    requires Supported(GetOr(f, k, Empty)) || exists i :: 0 <= i < |chips| && Contributes(chips[i], k)
    ensures Supported(GetOr(MergeChips(f, chips), k, Empty))
    decreases |chips|
  {
    if chips != [] {
      var init := chips[..|chips| - 1];
      var last := chips[|chips| - 1];
      MergeChipEffect(MergeChips(f, init), last);
      if !Contributes(last, k) {
        if !Supported(GetOr(f, k, Empty)) {
          var i :| 0 <= i < |chips| && Contributes(chips[i], k);
          assert i < |chips| - 1;
          assert init[i] == chips[i];
        }
        SupportedAfterMerge(f, init, k);
      }
    }
  }

  /**
   * `data_sharing` is switched on exactly by a chip that supports NDEF or
   * Spark, for an implant whose own record does not mention NDEF, Spark or
   * data sharing.
   */
  lemma DataSharingFromChips(meta: ChipImplantMeta)
    requires meta.features.Some? ==>
      "ndef" !in meta.features.value && "spark" !in meta.features.value &&
      "data_sharing" !in meta.features.value
    ensures var chips := meta.chip.GetOr([]);
      "data_sharing" in MergedFeatures(meta) <==>
        exists i :: 0 <= i < |chips| &&
          (Supported(chips[i].features.ndef) || Supported(chips[i].features.spark))
    ensures "data_sharing" in MergedFeatures(meta) ==> MergedFeatures(meta)["data_sharing"] == SupportedOnly
  {
    var chips := meta.chip.GetOr([]);
    var f := InitialFeatures(meta);
    assert f["ndef"] == Unsupported && f["spark"] == Unsupported && "data_sharing" !in f;
    var m := MergeChips(f, chips);
    UntouchedKey(f, chips, "data_sharing");
    if exists i :: 0 <= i < |chips| &&
         (Supported(chips[i].features.ndef) || Supported(chips[i].features.spark)) {
      var i :| 0 <= i < |chips| &&
        (Supported(chips[i].features.ndef) || Supported(chips[i].features.spark));
      if Supported(chips[i].features.ndef) {
        assert Contributes(chips[i], "ndef");
        SupportedAfterMerge(f, chips, "ndef");
      } else {
        assert Contributes(chips[i], "spark");
        SupportedAfterMerge(f, chips, "spark");
      }
    } else {
      assert forall i :: 0 <= i < |chips| ==> !Contributes(chips[i], "ndef") && !Contributes(chips[i], "spark");
      UntouchedKey(f, chips, "ndef");
      UntouchedKey(f, chips, "spark");
    }
  }

  /**
   * A key other than `data_sharing` that none of the implant's chips
   * supports ends construction as the defaults and the caller's record left it.
   */
  lemma {:induction false} MergedKeyKept(meta: ChipImplantMeta, k: string)
    requires k != "data_sharing"
    requires forall c <- meta.chip.GetOr([]) :: !Contributes(c, k)
    ensures GetOr(MergedFeatures(meta), k, Empty) == GetOr(InitialFeatures(meta), k, Empty)
  {
    var chips := meta.chip.GetOr([]);
    assert forall i :: 0 <= i < |chips| ==> !Contributes(chips[i], k) by {
      forall i | 0 <= i < |chips| ensures !Contributes(chips[i], k) {
        assert chips[i] in chips;
      }
    }
    UntouchedKey(InitialFeatures(meta), chips, k);
  }

  // ---------------------------------------------------------------
  // Frequency
  // ---------------------------------------------------------------

  /** Some frequency in `fs` lies in band `b`. */
  predicate HasBand(fs: seq<Frequency>, b: Band) {
    exists i :: 0 <= i < |fs| && BandOf(fs[i]) == b
  }

  /** The `summary_frequency` value: "LF", "HF", "Dual", or "" when no band is present. */
  function FrequencyValue(fs: seq<Frequency>): string {
    var lf := HasBand(fs, LF);
    var hf := HasBand(fs, HF);
    if lf && hf then "Dual" else if lf then "LF" else if hf then "HF" else ""
  }

  /** `summary_frequency`: the line when the value is non-empty, null otherwise. */
  function FrequencyLine(fs: seq<Frequency>): Option<SummaryLine> {
    var v := FrequencyValue(fs);
    if |v| > 0 then Some(SummaryLine("Frequency", v)) else None
  }

  /** `FREQ_MAP` is total, so the line is missing exactly when the implant has no frequency at all. */
  lemma FrequencyLineNoneIff(fs: seq<Frequency>)
    ensures FrequencyLine(fs).None? <==> fs == []
  {
    if fs != [] {
      assert BandOf(fs[0]) == LF || BandOf(fs[0]) == HF;
    }
  }

  /** "Dual" exactly when both bands occur; "HF" and "LF" when only that band does. */
  lemma FrequencyValueCases(fs: seq<Frequency>)
    ensures FrequencyValue(fs) == "Dual" <==> HasBand(fs, LF) && HasBand(fs, HF)
    ensures FrequencyValue(fs) == "HF" <==> HasBand(fs, HF) && !HasBand(fs, LF)
    ensures FrequencyValue(fs) == "LF" <==> HasBand(fs, LF) && !HasBand(fs, HF)
  {
  }

  // ---------------------------------------------------------------
  // Data sharing
  // ---------------------------------------------------------------

  predicate NdefSupported(c: Chip) { Supported(c.features.ndef) }

  predicate SparkSupported(c: Chip) { Supported(c.features.spark) }

  /** `c.features.ndef.capacity ?? "Yes"` */
  function Capacity(c: Chip): string {
    var attrs := c.features.ndef.attrs;
    if "capacity" in attrs then AttrString(attrs["capacity"]) else "Yes"
  }

  /**
   * The rows `summary_data_sharing` collects before sorting: per chip, in
   * order, "Spark" for a Spark chip and then its NDEF capacity.
   */
  function DataSharingTokens(chips: seq<Chip>): (rows: seq<string>)
    ensures |rows| > 0 <==> exists i :: 0 <= i < |chips| && (SparkSupported(chips[i]) || NdefSupported(chips[i]))
    ensures forall t <- rows :: t == "Spark" || exists i :: 0 <= i < |chips| && NdefSupported(chips[i]) && t == Capacity(chips[i])
    decreases |chips|
  {
    if chips == [] then []
    else
      var init := chips[..|chips| - 1];
      var c := chips[|chips| - 1];
      assert forall i :: 0 <= i < |init| ==> init[i] == chips[i];
      DataSharingTokens(init) + (if SparkSupported(c) then ["Spark"] else []) + (if NdefSupported(c) then [Capacity(c)] else [])
  }

  /** The NDEF capacity of each chip, in order. */
  function Capacities(chips: seq<Chip>): (caps: seq<string>)
    ensures |caps| == |chips|
    ensures forall i :: 0 <= i < |chips| ==> caps[i] == Capacity(chips[i])
  {
    seq(|chips|, i requires 0 <= i < |chips| => Capacity(chips[i]))
  }

  /** `n` rows reading "Spark". */
  function SparkRows(n: nat): (rows: seq<string>)
    ensures |rows| == n && forall t <- rows :: t == "Spark"
  {
    if n == 0 then [] else SparkRows(n - 1) + ["Spark"]
  }

  /**
   * Up to order, the rows are one "Spark" per Spark chip and one capacity
   * per NDEF chip.
   */
  lemma {:induction false} DataSharingTokensCounts(chips: seq<Chip>)
    ensures multiset(DataSharingTokens(chips)) ==
      multiset(SparkRows(|Filter(chips, SparkSupported)|)) + multiset(Capacities(Filter(chips, NdefSupported)))
    ensures |DataSharingTokens(chips)| == |Filter(chips, SparkSupported)| + |Filter(chips, NdefSupported)|
    decreases |chips|
  {
    if chips == [] {
      assert Filter(chips, SparkSupported) == [] && Filter(chips, NdefSupported) == [];
      assert SparkRows(0) == [] && Capacities([]) == [];
    } else {
      var init := chips[..|chips| - 1];
      var c := chips[|chips| - 1];
      DataSharingTokensCounts(init);
      var sT := if SparkSupported(c) then ["Spark"] else [];
      var nT := if NdefSupported(c) then [Capacity(c)] else [];
      assert DataSharingTokens(chips) == DataSharingTokens(init) + sT + nT;
      assert Filter(chips, SparkSupported) == Filter(init, SparkSupported) + (if SparkSupported(c) then [c] else []);
      assert Filter(chips, NdefSupported) == Filter(init, NdefSupported) + (if NdefSupported(c) then [c] else []);
      SparkRowsSnoc(|Filter(init, SparkSupported)|, SparkSupported(c));
      CapacitiesSnoc(Filter(init, NdefSupported), c, NdefSupported(c));
      assert |Filter(chips, SparkSupported)| == |Filter(init, SparkSupported)| + (if SparkSupported(c) then 1 else 0);
      assert SparkRows(|Filter(chips, SparkSupported)|) == SparkRows(|Filter(init, SparkSupported)|) + sT;
      assert Capacities(Filter(chips, NdefSupported)) == Capacities(Filter(init, NdefSupported)) + nT;
      MultisetStep(DataSharingTokens(init), SparkRows(|Filter(init, SparkSupported)|), Capacities(Filter(init, NdefSupported)), sT, nT);
    }
  }

  /**
   * The shown value depends only on how many chips have Spark and on the
   * capacities of the NDEF chips, not on where the chips sit in the list.
   */
  lemma DataSharingLineFromCounts(chips: seq<Chip>)
    ensures DataSharingLine(chips).Some? ==> |Filter(chips, SparkSupported)| + |Filter(chips, NdefSupported)| > 0
    ensures DataSharingLine(chips).Some? ==>
      DataSharingLine(chips).value.value ==
        DataSharingValue(Sort(SparkRows(|Filter(chips, SparkSupported)|) + Capacities(Filter(chips, NdefSupported))))
  {
    DataSharingTokensCounts(chips);
    var canonical := SparkRows(|Filter(chips, SparkSupported)|) + Capacities(Filter(chips, NdefSupported));
    SortDependsOnlyOnContents(DataSharingTokens(chips), canonical);
  }

  /** Appending to both sides of a multiset sum. */
  lemma MultisetStep(t: seq<string>, a: seq<string>, b: seq<string>, x: seq<string>, y: seq<string>)
    requires multiset(t) == multiset(a) + multiset(b)
    ensures multiset(t + x + y) == multiset(a + x) + multiset(b + y)
  {
  }

  /** One more Spark chip adds one more "Spark" row. */
  lemma SparkRowsSnoc(n: nat, more: bool)
    ensures SparkRows(n + (if more then 1 else 0)) == SparkRows(n) + (if more then ["Spark"] else [])
  {
  }

  /** One more NDEF chip adds its capacity at the end. */
  lemma CapacitiesSnoc(cs: seq<Chip>, c: Chip, more: bool)
    ensures Capacities(cs + (if more then [c] else [])) == Capacities(cs) + (if more then [Capacity(c)] else [])
  {
  }

  /** One row verbatim, otherwise the first two sorted rows joined by " / "; later rows are dropped. */
  function DataSharingValue(rows: seq<string>): string
    requires |rows| > 0
  {
    if |rows| == 1 then rows[0] else rows[0] + " / " + rows[1]
  }

  /** `summary_data_sharing` */
  function DataSharingLine(chips: seq<Chip>): (r: Option<SummaryLine>)
    ensures r.Some? <==> exists i :: 0 <= i < |chips| && (SparkSupported(chips[i]) || NdefSupported(chips[i]))
    ensures r.Some? ==> r.value.feature == "Data Sharing"
    ensures r.Some? ==> |DataSharingTokens(chips)| > 0
    ensures r.Some? ==> r.value.value == (var s := Sort(DataSharingTokens(chips)); if |s| == 1 then s[0] else s[0] + " / " + s[1])
  {
    if |Filter(chips, NdefSupported)| > 0 || FindIndex(chips, SparkSupported) < |chips| then
      assert exists i :: 0 <= i < |chips| && (SparkSupported(chips[i]) || NdefSupported(chips[i])) by {
        if |Filter(chips, NdefSupported)| > 0 {
          var c := Filter(chips, NdefSupported)[0];
          assert c in Filter(chips, NdefSupported);
          var i :| 0 <= i < |chips| && chips[i] == c;
        } else {
          var i := FindIndex(chips, SparkSupported);
          assert SparkSupported(chips[i]);
        }
      }
      Some(SummaryLine("Data Sharing", DataSharingValue(Sort(DataSharingTokens(chips)))))
    else
      assert forall i :: 0 <= i < |chips| ==> !NdefSupported(chips[i]) by {
        forall i | 0 <= i < |chips| ensures !NdefSupported(chips[i]) {
          assert chips[i] in chips;
        }
      }
      None
  }

  /** The shown value is the smallest row, and, with several rows, the two smallest. */
  lemma DataSharingPicksSmallest(rows: seq<string>)
    requires |rows| > 0
    ensures var sorted := Sort(rows);
      DataSharingValue(sorted) == sorted[0] || DataSharingValue(sorted) == sorted[0] + " / " + sorted[1]
    ensures forall t <- rows :: StrLe(Sort(rows)[0], t)
  {
    var sorted := Sort(rows);
    forall t <- rows ensures StrLe(sorted[0], t) {
      assert t in multiset(sorted);
      var j :| 0 <= j < |sorted| && sorted[j] == t;
      SortedFirstIsLeast(sorted, j);
    }
  }

  // ---------------------------------------------------------------
  // Magic
  // ---------------------------------------------------------------

  /** The `magic` getter: the magic descriptors of the magic chips, in chip order. */
  function MagicDescriptors(chips: seq<Chip>): (ds: seq<Descriptor>)
    ensures |ds| == 0 <==> forall i :: 0 <= i < |chips| ==> !IsMagic(chips[i])
    ensures forall d <- ds :: Supported(d)
    decreases |chips|
  {
    if chips == [] then []
    else
      var init := chips[..|chips| - 1];
      var c := chips[|chips| - 1];
      assert forall i :: 0 <= i < |init| ==> init[i] == chips[i];
      MagicDescriptors(init) + (if IsMagic(c) then [c.features.magic] else [])
  }

  /** The bucket entries one emulated chip adds: itself once per frequency in band `b`. */
  function Pushes(c: Chip, fs: seq<Frequency>, b: Band): seq<Chip>
    decreases |fs|
  {
    if fs == [] then []
    else Pushes(c, fs[..|fs| - 1], b) + (if BandOf(fs[|fs| - 1]) == b then [c] else [])
  }

  /** The band-`b` bucket over a list of emulated chips, in order. */
  function Bucket(vchips: seq<Chip>, b: Band): seq<Chip>
    decreases |vchips|
  {
    if vchips == [] then []
    else Bucket(vchips[..|vchips| - 1], b) + Pushes(vchips[|vchips| - 1], EffectiveFrequency(vchips[|vchips| - 1]), b)
  }

  /** A chip pushes only itself. */
  lemma {:induction false} PushesOnlyItself(c: Chip, fs: seq<Frequency>, b: Band)
    ensures forall x <- Pushes(c, fs, b) :: x == c
    decreases |fs|
  {
    if fs != [] {
      PushesOnlyItself(c, fs[..|fs| - 1], b);
    }
  }

  /** A bucket holds only emulated chips. */
  lemma {:induction false} BucketHoldsEmulated(vchips: seq<Chip>, b: Band)
    ensures forall x <- Bucket(vchips, b) :: x in vchips
    decreases |vchips|
  {
    if vchips != [] {
      var init := vchips[..|vchips| - 1];
      var c := vchips[|vchips| - 1];
      BucketHoldsEmulated(init, b);
      PushesOnlyItself(c, EffectiveFrequency(c), b);
      forall x <- Bucket(vchips, b) ensures x in vchips {
        if x in Bucket(init, b) {
          var i :| 0 <= i < |init| && init[i] == x;
          assert vchips[i] == x;
        }
      }
    }
  }

  /** The band-`b` bucket over the magic descriptors that list their chips. */
  function MagicBucket(ds: seq<Descriptor>, b: Band): seq<Chip>
    decreases |ds|
  {
    if ds == [] then []
    else
      var d := ds[|ds| - 1];
      MagicBucket(ds[..|ds| - 1], b) + (match d.virtual case Listed(cs) => Bucket(cs, b) case Unlisted => [])
  }

  /** A bucket's label: the chip's name for one entry, "Many" for more, "" for none. */
  function Label(bucket: seq<Chip>): string {
    if |bucket| == 1 then bucket[0].name else if |bucket| > 1 then "Many" else ""
  }

  /** A label is never empty unless the bucket is, or its one chip has an empty name. */
  lemma LabelCases(bucket: seq<Chip>)
    ensures Label(bucket) == "" <==> |bucket| == 0 || (|bucket| == 1 && bucket[0].name == "")
    ensures |bucket| > 1 ==> Label(bucket) == "Many"
    ensures |bucket| == 1 ==> Label(bucket) == bucket[0].name
  {
  }

  /** The emulated chips every listing magic descriptor names, in order. */
  function Emulated(ds: seq<Descriptor>): seq<Chip>
    decreases |ds|
  {
    if ds == [] then []
    else
      var d := ds[|ds| - 1];
      Emulated(ds[..|ds| - 1]) + (match d.virtual case Listed(cs) => cs case Unlisted => [])
  }

  /** The two magic buckets hold one entry per frequency of the emulated chips. */
  lemma {:induction false} MagicBucketSizes(ds: seq<Descriptor>)
    ensures |MagicBucket(ds, LF)| + |MagicBucket(ds, HF)| == |EffectiveFrequencies(Emulated(ds))|
    decreases |ds|
  {
    if ds != [] {
      var init, d := ds[..|ds| - 1], ds[|ds| - 1];
      MagicBucketSizes(init);
      match d.virtual
      case Listed(cs) =>
        assert Emulated(ds) == Emulated(init) + cs;
        assert |MagicBucket(ds, LF)| == |MagicBucket(init, LF)| + |Bucket(cs, LF)|;
        assert |MagicBucket(ds, HF)| == |MagicBucket(init, HF)| + |Bucket(cs, HF)|;
        BucketPartition(cs);
        FrequenciesAppend(Emulated(init), cs);
      case Unlisted =>
        assert Emulated(ds) == Emulated(init);
        assert MagicBucket(ds, LF) == MagicBucket(init, LF) && MagicBucket(ds, HF) == MagicBucket(init, HF);
    }
  }

  /** Every magic bucket entry is one of the emulated chips. */
  lemma {:induction false} MagicBucketHoldsEmulated(ds: seq<Descriptor>, band: Band)
    ensures forall x <- MagicBucket(ds, band) :: x in Emulated(ds)
    decreases |ds|
  {
    if ds != [] {
      var init, d := ds[..|ds| - 1], ds[|ds| - 1];
      MagicBucketHoldsEmulated(init, band);
      match d.virtual
      case Listed(cs) =>
        assert Emulated(ds) == Emulated(init) + cs;
        assert MagicBucket(ds, band) == MagicBucket(init, band) + Bucket(cs, band);
        BucketHoldsEmulated(cs, band);
      case Unlisted =>
        assert Emulated(ds) == Emulated(init);
        assert MagicBucket(ds, band) == MagicBucket(init, band);
    }
  }

  /** The `summary_magic` value from the two buckets and the implant's chip count. */
  function MagicValue(lf: seq<Chip>, hf: seq<Chip>, chipCount: nat): (v: string)
    ensures |lf| == 0 && |hf| == 0 ==> v == ""
    ensures |hf| > 0 && Label(lf) == Label(hf) ==> v == "Many LF and HF"
    ensures |lf| > 0 && |hf| > 0 && Label(lf) != Label(hf) ==> v == Label(lf) + " LF,\n " + Label(hf) + " HF"
    ensures |lf| > 0 && |hf| == 0 ==> v == (if chipCount > 1 then Label(lf) + " LF" else Label(lf))
    ensures |lf| == 0 && |hf| > 0 && Label(hf) != "" ==> v == (if chipCount > 1 then Label(hf) + " HF" else Label(hf))
    ensures |lf| > 1 && |hf| > 1 ==> v == "Many LF and HF"
    ensures |lf| > 1 && |hf| == 0 ==> v == (if chipCount > 1 then "Many LF" else "Many")
    ensures |hf| > 1 && |lf| == 0 ==> v == (if chipCount > 1 then "Many HF" else "Many")
  {
    var lfLabel := Label(lf);
    var hfLabel := Label(hf);
    if |hf| > 0 && lfLabel == hfLabel then "Many LF and HF"
    else if |lf| > 0 && |hf| > 0 then lfLabel + " LF,\n " + hfLabel + " HF"
    else
      var lfText := if chipCount > 1 && |lf| > 0 then lfLabel + " LF" else lfLabel;
      var hfText := if chipCount > 1 && |hfLabel| > 0 then hfLabel + " HF" else hfLabel;
      if |lf| > 0 then lfText else hfText
  }

  /** `summary_magic` */
  function MagicLine(chips: seq<Chip>): (r: Option<SummaryLine>)
    ensures r.None? <==> forall i :: 0 <= i < |chips| ==> !IsMagic(chips[i])
    ensures r.Some? ==> r.value.feature == "Magic"
    ensures r.Some? ==>
      r.value.value == MagicValue(MagicBucket(MagicDescriptors(chips), LF), MagicBucket(MagicDescriptors(chips), HF), |chips|)
  {
    var ds := MagicDescriptors(chips);
    if |ds| == 0 then None
    else Some(SummaryLine("Magic", MagicValue(MagicBucket(ds, LF), MagicBucket(ds, HF), |chips|)))
  }

  /** Each frequency of a chip lands in exactly one of the two buckets. */
  lemma {:induction false} PushesPartition(c: Chip, fs: seq<Frequency>)
    ensures |Pushes(c, fs, LF)| + |Pushes(c, fs, HF)| == |fs|
    decreases |fs|
  {
    if fs != [] {
      PushesPartition(c, fs[..|fs| - 1]);
    }
  }

  /** The two buckets together hold one entry per frequency of the emulated chips. */
  lemma {:induction false} BucketPartition(vchips: seq<Chip>)
    ensures |Bucket(vchips, LF)| + |Bucket(vchips, HF)| == |EffectiveFrequencies(vchips)|
    decreases |vchips|
  {
    if vchips != [] {
      var c := vchips[|vchips| - 1];
      BucketPartition(vchips[..|vchips| - 1]);
      PushesPartition(c, EffectiveFrequency(c));
    }
  }

  /** A chip whose frequencies all lie in band `b` is pushed once per frequency into `b` and never into the other band. */
  lemma {:induction false} PushesSingleBand(c: Chip, fs: seq<Frequency>, b: Band)
    requires forall f <- fs :: BandOf(f) == b
    ensures |Pushes(c, fs, b)| == |fs|
    ensures Pushes(c, fs, if b == LF then HF else LF) == []
    decreases |fs|
  {
    if fs != [] {
      PushesSingleBand(c, fs[..|fs| - 1], b);
      assert fs[|fs| - 1] in fs;
    }
  }

  /** When every frequency of the emulated chips lies in band `b`, all entries go to `b`'s bucket. */
  lemma {:induction false} BucketSingleBand(vchips: seq<Chip>, b: Band)
    requires forall f <- EffectiveFrequencies(vchips) :: BandOf(f) == b
    ensures |Bucket(vchips, b)| == |EffectiveFrequencies(vchips)|
    ensures Bucket(vchips, if b == LF then HF else LF) == []
    decreases |vchips|
  {
    if vchips != [] {
      var init := vchips[..|vchips| - 1];
      var c := vchips[|vchips| - 1];
      assert EffectiveFrequencies(vchips) == EffectiveFrequencies(init) + EffectiveFrequency(c);
      BucketSingleBand(init, b);
      PushesSingleBand(c, EffectiveFrequency(c), b);
    }
  }

  // ---------------------------------------------------------------
  // Payment, blink, digital security, cryptography
  // ---------------------------------------------------------------

  predicate PaymentSupported(c: Chip) { Supported(c.features.payment) }

  /** `c.features.payment.enabled` is truthy. */
  predicate PaymentEnabled(c: Chip) {
    "enabled" in c.features.payment.attrs && Truthy(c.features.payment.attrs["enabled"])
  }

  /**
   * `summary_payment`: null unless some chip supports payment; then "Yes"
   * when a supporting chip has payment enabled, "Disabled" otherwise.
   */
  function PaymentLine(chips: seq<Chip>): Option<SummaryLine> {
    if exists i :: 0 <= i < |chips| && PaymentSupported(chips[i]) then
      Some(SummaryLine("Payment",
        if exists i :: 0 <= i < |chips| && PaymentSupported(chips[i]) && PaymentEnabled(chips[i])
        then "Yes" else "Disabled"))
    else None
  }

  /**
   * `summary_blink`. With exactly two chips the value is the name of the
   * first chip whose `power_harvesting` is truthy; every chip carries an
   * object there and an object is truthy, so the search takes the first chip.
   */
  function BlinkLine(chips: seq<Chip>, raw: map<string, Descriptor>): (r: Option<SummaryLine>)
    ensures r.Some? <==> Supported(GetOr(raw, "blink", Unsupported))
    ensures r.Some? && |chips| == 2 ==> r.value == SummaryLine("Blink", chips[0].name)
    ensures r.Some? && |chips| != 2 ==> r.value == SummaryLine("Blink", "Yes")
  {
    if Supported(GetOr(raw, "blink", Unsupported)) then
      Some(SummaryLine("Blink",
        if |chips| == 2 then chips[FindIndex(chips, (c: Chip) => true)].name else "Yes"))
    else None
  }

  /** `summary_digital_security`: "Yes" when some chip supports JCOP. */
  function DigitalSecurityLine(chips: seq<Chip>): Option<SummaryLine> {
    if exists i :: 0 <= i < |chips| && Supported(chips[i].features.jcop)
    then Some(SummaryLine("Digital Security", "Yes"))
    else None
  }

  /** The error `c.features.cryptography.supported` raises: the key is missing on every chip. */
  const UndefinedCryptography := TypeError("Cannot read properties of undefined (reading 'supported')")

  /**
   * The `cryptography` getter: the supported descriptors under the
   * `cryptography` key of each chip. Reading `.supported` of a missing key
   * throws, so it fails as soon as there is a chip.
   */
  function Cryptography(chips: seq<Chip>): (r: Result<seq<Descriptor>>)
    ensures r.Err? <==> |chips| > 0
    ensures r.Ok? ==> r.value == []
    decreases |chips|
  {
    if chips == [] then Ok([])
    else
      match Cryptography(chips[..|chips| - 1])
      case Err(e) => Err(e)
      case Ok(init) =>
        match ChipDescriptor(chips[|chips| - 1], "cryptography")
        case None => Err(UndefinedCryptography)
        case Some(d) => Ok(if Supported(d) then init + [d] else init)
  }

  /** `summary_cryptography`: "Yes" when the getter finds a descriptor, and its failure otherwise. */
  function CryptographyLine(chips: seq<Chip>): (r: Result<Option<SummaryLine>>)
    ensures r.Err? <==> |chips| > 0
    ensures r.Ok? ==> r.value.None?
  {
    match Cryptography(chips)
    case Err(e) => Err(e)
    case Ok(ds) => Ok(if |ds| > 0 then Some(SummaryLine("Cryptography", "Yes")) else None)
  }

  // ---------------------------------------------------------------
  // Temperature and sensors
  // ---------------------------------------------------------------

  predicate TemperatureSupported(c: Chip) { Supported(c.features.temperature) }

  /**
   * The `temperature` getter: the first temperature chip's descriptor;
   * failing that the implant's own descriptor when supported; failing
   * that `{ supported: false }`.
   */
  function Temperature(chips: seq<Chip>, raw: map<string, Descriptor>): (d: Descriptor)
    ensures (exists i :: 0 <= i < |chips| && TemperatureSupported(chips[i])) ==>
      exists i :: 0 <= i < |chips| && TemperatureSupported(chips[i]) && d == chips[i].features.temperature &&
        forall j :: 0 <= j < i ==> !TemperatureSupported(chips[j])
    ensures (forall i :: 0 <= i < |chips| ==> !TemperatureSupported(chips[i])) ==>
      d == (if Supported(GetOr(raw, "temperature", Empty)) then raw["temperature"] else Unsupported)
    ensures Supported(d) <==>
      (exists i :: 0 <= i < |chips| && TemperatureSupported(chips[i])) || Supported(GetOr(raw, "temperature", Empty))
  {
    var i := FindIndex(chips, TemperatureSupported);
    if i < |chips| then chips[i].features.temperature
    else if Supported(GetOr(raw, "temperature", Empty)) then raw["temperature"]
    else Unsupported
  }

  /** `summary_sensors`: pulse ox needs a temperature sensor to be reported. */
  function SensorsLine(chips: seq<Chip>, raw: map<string, Descriptor>): (r: Option<SummaryLine>)
    ensures r.None? <==> !Supported(Temperature(chips, raw))
    ensures r.Some? && Supported(GetOr(raw, "pulse_ox", Unsupported)) ==>
      r.value == SummaryLine("Sensors", "Has pulse ox and temperature sensors")
    ensures r.Some? && !Supported(GetOr(raw, "pulse_ox", Unsupported)) ==>
      r.value == SummaryLine("Sensors", "Has temperature sensor")
  {
    var temperature := Temperature(chips, raw);
    if Supported(GetOr(raw, "pulse_ox", Unsupported)) && Supported(temperature) then
      Some(SummaryLine("Sensors", "Has pulse ox and temperature sensors"))
    else if Supported(temperature) then
      Some(SummaryLine("Sensors", "Has temperature sensor"))
    else None
  }

  // ---------------------------------------------------------------
  // features, options, details
  // ---------------------------------------------------------------

  /** `{ supported: b }` */
  function SupportedFlag(b: bool): Descriptor {
    Descriptor(map["supported" := Flag(b)], Unlisted)
  }

  /** `ChipImplantFeaturesType` plus `sensors`: the fourteen entries the `features` getter reports. */
  datatype ImplantFeatures = ImplantFeatures(
    smartphone: Descriptor,
    legacyAccessControl: Descriptor,
    digitalSecurity: Descriptor,
    dataSharing: Descriptor,
    blink: Descriptor,
    cryptography: Descriptor,
    ndef: Descriptor,
    spark: Descriptor,
    jcop: Descriptor,
    temperature: Descriptor,
    pulseOx: Descriptor,
    sensors: Descriptor,
    payment: Descriptor,
    magic: Descriptor)

  /**
   * The `features` getter: smartphone and legacy access control derived
   * from the frequency summary, the temperature getter, a sensors flag,
   * and the stored entries (`{ supported: false }` where missing);
   * `digital_security` repeats the JCOP entry.
   */
  function FeaturesView(chips: seq<Chip>, raw: map<string, Descriptor>): (v: ImplantFeatures)
    ensures Supported(v.smartphone) <==> HasBand(EffectiveFrequencies(chips), HF)
    ensures Supported(v.legacyAccessControl) <==> HasBand(EffectiveFrequencies(chips), LF)
    ensures v.digitalSecurity == v.jcop
    ensures v.temperature == Temperature(chips, raw)
    ensures Supported(v.sensors) <==> Supported(Temperature(chips, raw)) || Supported(GetOr(raw, "pulse_ox", Empty))
  {
    var value := FrequencyValue(EffectiveFrequencies(chips));
    var temperature := Temperature(chips, raw);
    ImplantFeatures(
      SupportedFlag(value == "HF" || value == "Dual"),
      SupportedFlag(value == "LF" || value == "Dual"),
      GetOr(raw, "jcop", Unsupported),
      GetOr(raw, "data_sharing", Unsupported),
      GetOr(raw, "blink", Unsupported),
      GetOr(raw, "cryptography", Unsupported),
      GetOr(raw, "ndef", Unsupported),
      GetOr(raw, "spark", Unsupported),
      GetOr(raw, "jcop", Unsupported),
      temperature,
      GetOr(raw, "pulse_ox", Unsupported),
      SupportedFlag(Supported(temperature) || Supported(GetOr(raw, "pulse_ox", Empty))),
      GetOr(raw, "payment", Unsupported),
      GetOr(raw, "magic", Unsupported))
  }

  /** `options.smartphone.iso`: the ISO tags of the chips that answer on 13.56 MHz, in chip order. */
  function SmartphoneIsos(chips: seq<Chip>): (isos: seq<IsoStandard>)
    ensures forall x :: x in isos <==>
      exists i :: 0 <= i < |chips| && MHz13_56 in EffectiveFrequency(chips[i]) && x in chips[i].features.iso
    decreases |chips|
  {
    if chips == [] then []
    else
      var init := chips[..|chips| - 1];
      var c := chips[|chips| - 1];
      assert forall i :: 0 <= i < |init| ==> init[i] == chips[i];
      SmartphoneIsos(init) + (if MHz13_56 in EffectiveFrequency(c) then c.features.iso else [])
  }

  /** Every ISO tag of the chips, flattened in chip order. */
  function AllIsoNames(chips: seq<Chip>): (names: seq<string>)
    ensures forall n <- names :: exists x :: n == IsoName(x)
    decreases |chips|
  {
    if chips == [] then []
    else
      var isos := chips[|chips| - 1].features.iso;
      AllIsoNames(chips[..|chips| - 1]) + seq(|isos|, i requires 0 <= i < |isos| => IsoName(isos[i]))
  }

  /** The tags `details` keeps: spelled with an "iso" prefix, which no catalogue tag has. */
  predicate RelevantIso(name: string) {
    name == "iso14443a" || name == "iso14443b" || name == "iso15693"
  }

  /** The part of `details` computed from the implant's state. */
  datatype ChipImplantDetails = ChipImplantDetails(
    smartphone: seq<string>,
    spark: Option<Attr>,
    ndef: Descriptor,
    magic: Descriptor,
    blink: Descriptor,
    temperature: Descriptor,
    pulseOx: Descriptor)

  /** `d.supported`, absent when the descriptor has no such attribute. */
  function SupportedAttr(d: Descriptor): Option<Attr> {
    if "supported" in d.attrs then Some(d.attrs["supported"]) else None
  }

  /**
   * The `details` getter. The smartphone list filters the distinct ISO
   * tags against "iso"-prefixed spellings and so always comes out empty.
   */
  function Details(chips: seq<Chip>, raw: map<string, Descriptor>): (d: ChipImplantDetails)
    ensures d.smartphone == []
    ensures d.temperature == Temperature(chips, raw)
    ensures d.spark == SupportedAttr(GetOr(raw, "spark", Unsupported))
  {
    var features := FeaturesView(chips, raw);
    var isos := Distinct(AllIsoNames(chips));
    var relevant := Filter(isos, RelevantIso);
    assert relevant == [] by {
      forall n <- isos ensures !RelevantIso(n) {
        var x :| n == IsoName(x);
      }
      FilterNone(isos, RelevantIso);
    }
    ChipImplantDetails(relevant, SupportedAttr(features.spark), features.ndef, features.magic,
                       features.blink, features.temperature, features.pulseOx)
  }

  // ---------------------------------------------------------------
  // summary
  // ---------------------------------------------------------------

  /** The features of the summary lines, in the order `summary` lists them. */
  const SummaryFeatureOrder: seq<string> :=
    ["Frequency", "Data Sharing", "Blink", "Digital Security", "Cryptography", "Magic", "Payment", "Sensors"]

  /**
   * The eight candidate lines of `summary`, in their fixed order, for an
   * implant whose cryptography getter succeeds (one without chips).
   */
  function SummaryCandidates(chips: seq<Chip>, raw: map<string, Descriptor>): (c: seq<Option<SummaryLine>>)
    requires |chips| == 0
    ensures |c| == |SummaryFeatureOrder|
    ensures forall k :: 0 <= k < |c| && c[k].Some? ==> c[k].value.feature == SummaryFeatureOrder[k]
  {
    FrequencyLineNoneIff(EffectiveFrequencies(chips));
    [FrequencyLine(EffectiveFrequencies(chips)), DataSharingLine(chips), BlinkLine(chips, raw),
     DigitalSecurityLine(chips), CryptographyLine(chips).value, MagicLine(chips), PaymentLine(chips),
     SensorsLine(chips, raw)]
  }

  /** The outcome of the `summary` getter, which fails whenever the implant has a chip. */
  function SummaryOf(chips: seq<Chip>, raw: map<string, Descriptor>): (r: Result<seq<SummaryLine>>)
    ensures r.Err? <==> |chips| > 0
    ensures r.Ok? ==> |r.value| <= 8
  {
    if |chips| > 0 then Err(CryptographyLine(chips).error)
    else Ok(Compact(SummaryCandidates(chips, raw)))
  }

  /**
   * Without chips the summary succeeds and holds the blink line, when
   * present, followed by the sensors line, when present.
   */
  lemma ChiplessSummary(raw: map<string, Descriptor>)
    ensures SummaryOf([], raw).Ok?
    ensures SummaryOf([], raw).value ==
      (if BlinkLine([], raw).Some? then [BlinkLine([], raw).value] else []) +
      (if SensorsLine([], raw).Some? then [SensorsLine([], raw).value] else [])
  {
    FrequencyLineNoneIff([]);
    assert DataSharingLine([]).None? && DigitalSecurityLine([]).None? && MagicLine([]).None?;
    assert PaymentLine([]).None? && CryptographyLine([]).value.None?;
    var c := SummaryCandidates([], raw);
    assert c[0].None? && c[1].None? && c[3].None? && c[4].None? && c[5].None? && c[6].None?;
    CompactThirdAndLast(c);
  }

  /** Compacting eight candidates of which only the third and the last may be present. */
  lemma CompactThirdAndLast(c: seq<Option<SummaryLine>>)
    requires |c| == 8
    requires c[0].None? && c[1].None? && c[3].None? && c[4].None? && c[5].None? && c[6].None?
    ensures Compact(c) ==
      (if c[2].Some? then [c[2].value] else []) + (if c[7].Some? then [c[7].value] else [])
  {
    var none2: seq<Option<SummaryLine>> := [None, None];
    var none4: seq<Option<SummaryLine>> := [None, None, None, None];
    assert c == none2 + [c[2]] + none4 + [c[7]];
    CompactAppend(none2 + [c[2]] + none4, [c[7]]);
    CompactAppend(none2 + [c[2]], none4);
    CompactAppend(none2, [c[2]]);
    CompactAllAbsent(none2);
    CompactAllAbsent(none4);
    CompactOne(c[2]);
    CompactOne(c[7]);
  }

  // ---------------------------------------------------------------
  // The ChipImplant class
  // ---------------------------------------------------------------

  class ChipImplant {
    const name: string
    const modType: string
    const installMethod: string
    const description: Option<string>
    const chip: seq<Chip>
    const formFactor: string
    /** `_features`: written by the constructor only. */
    var storedFeatures: map<string, Descriptor>

    /**
     * The constructor for a truthy name: defaults for the type, install
     * method, chips and form factor, the caller's features over the seven
     * defaults, then each chip merged in order and the data-sharing rule.
     */
    constructor(meta: ChipImplantMeta)
      requires NameGiven(meta.name)
      ensures name == meta.name.value
      ensures modType == meta.modType.GetOr("Chip")
      ensures installMethod == meta.installMethod.GetOr("Injectable")
      ensures description == None
      ensures chip == meta.chip.GetOr([])
      ensures formFactor == meta.formFactor.GetOr("x-Series")
      ensures storedFeatures == MergedFeatures(meta)
    {
      name := meta.name.value;
      modType := meta.modType.GetOr("Chip");
      installMethod := meta.installMethod.GetOr("Injectable");
      description := None;
      chip := meta.chip.GetOr([]);
      formFactor := meta.formFactor.GetOr("x-Series");
      var f := MergeAllChips(InitialFeatures(meta), meta.chip.GetOr([]));
      if Supported(GetOr(f, "ndef", Empty)) || Supported(GetOr(f, "spark", Empty)) {
        f := f["data_sharing" := SupportedOnly];
      }
      storedFeatures := f;
    }

    /** The `uid_length` getter of an implant is always empty. */
    function UidLength(): (u: seq<ChipUid>)
      ensures u == []
    {
      []
    }

    /** The `frequency` getter: the chips' effective frequencies, flattened in chip order. */
    function Frequency(): (fs: seq<Frequency>)
      ensures fs == Flatten(FrequencyLists(chip))
    {
      FrequenciesAreFlatMap(chip);
      EffectiveFrequencies(chip)
    }

    /** The `features` getter. */
    function Features(): ImplantFeatures
      reads this
    {
      FeaturesView(chip, storedFeatures)
    }

    /** The `temperature` getter. */
    function TemperatureOf(): Descriptor
      reads this
    {
      Temperature(chip, storedFeatures)
    }

    /** The `details` getter. */
    function DetailsOf(): ChipImplantDetails
      reads this
    {
      Details(chip, storedFeatures)
    }

    /** `options.smartphone.iso` */
    function Options(): seq<IsoStandard> {
      SmartphoneIsos(chip)
    }

    /** `summary_frequency`: marks each band met while walking the frequencies. */
    method SummaryFrequency() returns (r: Option<SummaryLine>)
      ensures r == FrequencyLine(EffectiveFrequencies(chip))
    {
      var fs := Frequency();
      var hf, lf := false, false;
      var i := 0;
      while i < |fs|
        invariant 0 <= i <= |fs|
        invariant hf == HasBand(fs[..i], HF)
        invariant lf == HasBand(fs[..i], LF)
      {
        assert forall k :: 0 <= k < i ==> fs[..i + 1][k] == fs[..i][k];
        assert fs[..i + 1][i] == fs[i];
        if BandOf(fs[i]) == HF {
          hf := true;
        } else {
          lf := true;
        }
        i := i + 1;
      }
      assert fs[..i] == fs;
      var value := "";
      if lf && !hf {
        value := "LF";
      }
      if hf && !lf {
        value := "HF";
      }
      if hf && lf {
        value := "Dual";
      }
      r := if |value| > 0 then Some(SummaryLine("Frequency", value)) else None;
    }

    /** `summary_data_sharing`: collects the rows chip by chip, sorts them and shows at most two. */
    method SummaryDataSharing() returns (r: Option<SummaryLine>)
      ensures r == DataSharingLine(chip)
    {
      if |Filter(chip, NdefSupported)| > 0 || FindIndex(chip, SparkSupported) < |chip| {
        var rows := CollectDataSharingRows(chip);
        assert DataSharingLine(chip).Some?;
        rows := Sort(rows);
        r := Some(SummaryLine("Data Sharing", if |rows| == 1 then rows[0] else rows[0] + " / " + rows[1]));
      } else {
        r := None;
      }
    }

    /** `summary_magic`: fills the LF and HF buckets, then labels them. */
    method SummaryMagic() returns (r: Option<SummaryLine>)
      ensures r == MagicLine(chip)
    {
      var ds := MagicDescriptors(chip);
      if |ds| == 0 {
        return None;
      }
      var lf, hf := FillMagicBuckets(ds);
      var summaryLf := Label(lf);
      var summaryHf := Label(hf);
      if |hf| > 0 && summaryLf == summaryHf {
        return Some(SummaryLine("Magic", "Many LF and HF"));
      }
      if |lf| > 0 && |hf| > 0 {
        return Some(SummaryLine("Magic", summaryLf + " LF,\n " + summaryHf + " HF"));
      }
      if |chip| > 1 && |lf| > 0 {
        summaryLf := summaryLf + " LF";
      }
      if |chip| > 1 && |summaryHf| > 0 {
        summaryHf := summaryHf + " HF";
      }
      r := Some(SummaryLine("Magic", if |lf| > 0 then summaryLf else summaryHf));
    }

    /** `summary_payment`: two flags raised while walking the chips. */
    method SummaryPayment() returns (r: Option<SummaryLine>)
      ensures r == PaymentLine(chip)
    {
      var supported, enabled := false, false;
      var i := 0;
      while i < |chip|
        invariant 0 <= i <= |chip|
        invariant supported == exists k :: 0 <= k < i && PaymentSupported(chip[k])
        invariant enabled == exists k :: 0 <= k < i && PaymentSupported(chip[k]) && PaymentEnabled(chip[k])
      {
        if PaymentSupported(chip[i]) {
          supported := true;
          if PaymentEnabled(chip[i]) {
            enabled := true;
          }
        }
        i := i + 1;
      }
      if !supported {
        return None;
      }
      r := Some(SummaryLine("Payment", if enabled then "Yes" else "Disabled"));
    }

    /**
     * `summary`: evaluates the eight getters in order (the cryptography
     * getter fails on the first chip) and keeps the lines that are present.
     */
    method Summary() returns (r: Result<seq<SummaryLine>>)
      ensures r == SummaryOf(chip, storedFeatures)
    {
      var frequency := SummaryFrequency();
      var dataSharing := SummaryDataSharing();
      var blink := BlinkLine(chip, storedFeatures);
      var digitalSecurity := DigitalSecurityLine(chip);
      var cryptography := CryptographyLine(chip);
      if cryptography.Err? {
        return Err(cryptography.error);
      }
      var magic := SummaryMagic();
      var payment := SummaryPayment();
      var sensors := SensorsLine(chip, storedFeatures);
      var candidates := [frequency, dataSharing, blink, digitalSecurity, cryptography.value, magic, payment, sensors];
      assert candidates == SummaryCandidates(chip, storedFeatures);
      var lines := KeepPresent(candidates);
      r := Ok(lines);
    }
  }

  /** The constructor's loop over the chips, merging each in order. */
  method MergeAllChips(base: map<string, Descriptor>, chips: seq<Chip>) returns (f: map<string, Descriptor>)
    ensures f == MergeChips(base, chips)
  {
    f := base;
    var i := 0;
    while i < |chips|
      invariant 0 <= i <= |chips|
      invariant f == MergeChips(base, chips[..i])
    {
      MergeChipsStep(base, chips, i);
      f := MergeChipInto(f, chips[i]);
      i := i + 1;
    }
    assert chips[..i] == chips;
  }

  /** One more chip is merged over the chips before it. */
  lemma MergeChipsStep(base: map<string, Descriptor>, chips: seq<Chip>, i: nat)
    requires i < |chips|
    ensures MergeChips(base, chips[..i + 1]) == MergeChip(MergeChips(base, chips[..i]), chips[i])
  {
    assert chips[..i + 1][..i] == chips[..i];
  }

  /** The inner loop of the constructor: the feature keys of one chip, in order. */
  method MergeChipInto(f0: map<string, Descriptor>, c: Chip) returns (f: map<string, Descriptor>)
    ensures f == MergeChip(f0, c)
  {
    f := f0;
    var j := 0;
    while j < |ChipFeatureKeys|
      invariant 0 <= j <= |ChipFeatureKeys|
      invariant f == MergeKeys(f0, c, ChipFeatureKeys[..j])
    {
      var key := ChipFeatureKeys[j];
      ghost var before := f;
      var d := ChipDescriptor(c, key);
      if d.Some? && Supported(d.value) {
        f := f[key := Spread(GetOr(f, key, Empty), d.value)];
      }
      assert f == MergeKey(before, c, key);
      MergeKeysStep(f0, c, ChipFeatureKeys, j);
      j := j + 1;
    }
    assert ChipFeatureKeys[..j] == ChipFeatureKeys;
  }

  /** The `forEach` of `summary_data_sharing`: "Spark" and then the NDEF capacity, chip by chip. */
  method CollectDataSharingRows(chips: seq<Chip>) returns (rows: seq<string>)
    ensures rows == DataSharingTokens(chips)
  {
    rows := [];
    var i := 0;
    while i < |chips|
      invariant 0 <= i <= |chips|
      invariant rows == DataSharingTokens(chips[..i])
    {
      assert chips[..i + 1][..i] == chips[..i];
      var c := chips[i];
      if SparkSupported(c) {
        rows := rows + ["Spark"];
      }
      if NdefSupported(c) {
        rows := rows + [Capacity(c)];
      }
      i := i + 1;
    }
    assert chips[..i] == chips;
  }

  /** The outer loop of `summary_magic`: the emulated chips of each magic descriptor that lists them. */
  method FillMagicBuckets(ds: seq<Descriptor>) returns (lf: seq<Chip>, hf: seq<Chip>)
    ensures lf == MagicBucket(ds, LF) && hf == MagicBucket(ds, HF)
  {
    lf, hf := [], [];
    var i := 0;
    while i < |ds|
      invariant 0 <= i <= |ds|
      invariant lf == MagicBucket(ds[..i], LF) && hf == MagicBucket(ds[..i], HF)
    {
      assert ds[..i + 1][..i] == ds[..i];
      if ds[i].virtual.Listed? {
        lf, hf := PushEmulated(ds[i].virtual.chips, lf, hf);
      }
      i := i + 1;
    }
    assert ds[..i] == ds;
  }

  /** The `forEach` of `summary`: the lines that are present, in order. */
  method KeepPresent(candidates: seq<Option<SummaryLine>>) returns (lines: seq<SummaryLine>)
    ensures lines == Compact(candidates)
  {
    lines := [];
    var i := 0;
    while i < |candidates|
      invariant 0 <= i <= |candidates|
      invariant lines == Compact(candidates[..i])
    {
      assert candidates[..i + 1][..i] == candidates[..i];
      if candidates[i].Some? {
        lines := lines + [candidates[i].value];
      }
      i := i + 1;
    }
    assert candidates[..i] == candidates;
  }

  /** The middle loop of `summary_magic`: each emulated chip in turn. */
  method PushEmulated(vs: seq<Chip>, lf0: seq<Chip>, hf0: seq<Chip>) returns (lf: seq<Chip>, hf: seq<Chip>)
    ensures lf == lf0 + Bucket(vs, LF) && hf == hf0 + Bucket(vs, HF)
  {
    lf, hf := lf0, hf0;
    var j := 0;
    while j < |vs|
      invariant 0 <= j <= |vs|
      invariant lf == lf0 + Bucket(vs[..j], LF) && hf == hf0 + Bucket(vs[..j], HF)
    {
      var lf', hf' := PushPerFrequency(vs[j], lf, hf);
      BucketExtend(vs, j, lf0, lf, lf', LF);
      BucketExtend(vs, j, hf0, hf, hf', HF);
      lf, hf := lf', hf';
      j := j + 1;
    }
    assert vs[..j] == vs;
  }

  /** One more emulated chip appends its own entries to a bucket. */
  lemma BucketExtend(vs: seq<Chip>, j: nat, start: seq<Chip>, before: seq<Chip>, after: seq<Chip>, b: Band)
    requires j < |vs|
    requires before == start + Bucket(vs[..j], b)
    requires after == before + Pushes(vs[j], EffectiveFrequency(vs[j]), b)
    ensures after == start + Bucket(vs[..j + 1], b)
  {
    assert vs[..j + 1][..j] == vs[..j];
    assert Bucket(vs[..j + 1], b) == Bucket(vs[..j], b) + Pushes(vs[j], EffectiveFrequency(vs[j]), b);
  }

  /** The inner loop of `summary_magic`: one bucket entry per frequency of `c`. */
  method PushPerFrequency(c: Chip, lf0: seq<Chip>, hf0: seq<Chip>) returns (lf: seq<Chip>, hf: seq<Chip>)
    ensures lf == lf0 + Pushes(c, EffectiveFrequency(c), LF)
    ensures hf == hf0 + Pushes(c, EffectiveFrequency(c), HF)
  {
    lf, hf := lf0, hf0;
    var fs := EffectiveFrequency(c);
    var k := 0;
    while k < |fs|
      invariant 0 <= k <= |fs|
      invariant lf == lf0 + Pushes(c, fs[..k], LF) && hf == hf0 + Pushes(c, fs[..k], HF)
    {
      assert fs[..k + 1][..k] == fs[..k];
      if BandOf(fs[k]) == HF {
        hf := hf + [c];
      } else {
        lf := lf + [c];
      }
      k := k + 1;
    }
    assert fs[..k] == fs;
  }

  /** `new ChipImplant(meta)`, which throws when the name is missing or empty. */
  method Create(meta: ChipImplantMeta) returns (r: Result<ChipImplant>)
    ensures r.Err? <==> !NameGiven(meta.name)
    ensures r.Err? ==> r.error == ConstructionError(NameRequired)
    ensures r.Ok? ==> fresh(r.value) && r.value.name == meta.name.value &&
                      r.value.chip == meta.chip.GetOr([]) && r.value.storedFeatures == MergedFeatures(meta)
  {
    if !NameGiven(meta.name) {
      return Err(ConstructionError(NameRequired));
    }
    var implant := new ChipImplant(meta);
    r := Ok(implant);
  }
}
