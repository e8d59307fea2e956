# Implant feature composition

This project models the implant catalogue of the body-modification club
app (`app/models/`) in Dafny:

- **Mods.** Every mod has a name, a type, an install method and a feature
  record. The generic `Mod` class also provides a default summary and a
  localisation helper for numbers.
- **Chips.** A chip is an RFID/NFC chip with UID lengths and carrier
  frequencies (125 kHz and 134 kHz are LF, 13.56 MHz is HF). It also has
  a fixed record of feature descriptors. A "magic" chip can emulate a list
  of other chips.
- **Chip implants.** A chip implant wraps zero or more chips (FlexClass and the
  two xLED implants have none). Its
  constructor merges every supported chip feature into the implant's own
  feature record. A later chip overwrites an earlier one attribute by
  attribute. `data_sharing` is switched on by NDEF or Spark. From the
  merged record and the chips, the implant derives its summary lines:
  frequency, data sharing, blink, digital security, cryptography, magic,
  payment and sensors.
- **Magnets and magnet implants.** A magnet has a type, an orientation and
  a field strength, each defaulting to "Unknown". A magnet implant adds an
  encapsulation and a summary of two or three lines.
- **Members.** A member owns a list of mods, looked up by name. The member
  computes its implants and the implant names it owns more than once, and
  caches both the first time they are read.

## Design

The modules follow the source files:

| Module | Source file(s) | Form |
|---|---|---|
| `Mods` | `mod.ts` | functions |
| `Chips` | `chip.ts` | functions |
| `ChipImplants` | `chip_implant.ts` | functions, plus a class |
| `ChipImplantRegistry` | the `CHIP_IMPLANT_MAP` | constant, lookup and lemmas |
| `ChipImplantExamples` | summaries of catalogue implants | lemmas |
| `Magnets` | `magnet.ts` | functions |
| `MagnetImplants` | `magnet_implant.ts` | functions |
| `Members` | `member.ts` | class |

- **`ChipImplant` is a `class`.** Its constructor builds the merged
  feature record with loops. Its summary getters also build their buckets
  and rows with loops, so each getter is a `method` proved equal to a
  specification function, and the properties are proved as lemmas about
  that function.
- **`Member` is a `class`.** Its two caches are fields that the getters
  fill. The getters are proved against `ImplantsOf` and `Duplicates`, and
  `Valid()` keeps each filled cache equal to a fresh computation, as long
  as no caller mutates what the getters return (see "Left out").
- **Magnets and magnet implants are immutable values.** They are
  datatypes with functions.
- **Module `Js` models the JavaScript built-ins the source relies on:**
  - `Array.isArray` normalisation;
  - `find`, `filter`, `flat` and `join`;
  - distinct values through a `Set`;
  - the default code-unit `sort`.
- **Module `Shapes` holds the value shapes the core files share:**
  - the attributes of a feature descriptor and JavaScript truthiness;
  - object spread;
  - `FREQ_MAP`;
  - the chip record;
  - summary lines.

## Model

| member | source | states |
|---|---|---|
| Js.AsArray | app/models/chip.ts:78-79 | a single value becomes a one-element list and a list is kept as it is |
| Js.FindIndex | app/models/chip_implant.ts:390-391 | the result is the first index whose element satisfies the predicate, or the length if none does |
| Js.Filter | app/models/member.ts:47 | every element kept satisfies the predicate and comes from the input, every satisfying element of the input is kept, and the result is never longer than the input |
| Js.FilterCounts | app/models/member.ts:47 | each element that satisfies the predicate is kept as often as it occurs, and every other element is dropped |
| Js.FilterAppend | app/models/member.ts:47 | filtering a concatenation filters each part and keeps their order |
| Js.Compact | app/models/chip_implant.ts:431-436 | drops the null lines: an element is kept exactly when it was present in the input |
| Js.CompactCounts | app/models/chip_implant.ts:431-436 | each present value is kept as often as it occurs |
| Js.CompactAppend | app/models/chip_implant.ts:431-436 | compacting a concatenation compacts each part and keeps their order |
| Js.CompactAllAbsent | app/models/chip_implant.ts:431-436 | a list of nulls leaves no line |
| Js.Distinct | app/models/magnet_implant.ts:98 | has the same elements as the input, each once |
| Js.DistinctSnoc | app/models/magnet_implant.ts:98 | appending a value appends it to the distinct values exactly when it has not occurred before, as a `Set` keeps insertion order |
| Js.DistinctFirstOccurrenceOrder | app/models/magnet_implant.ts:98 | the distinct values are in the order of their first occurrences: a value listed earlier occurs in the input before any occurrence of a value listed later |
| Js.Sort | app/models/chip_implant.ts:290 | the result is a sorted permutation of its input |
| Js.SortedFirstIsLeast | app/models/chip_implant.ts:290 | in a sorted list the first element is not greater than any other |
| Js.SortedUnique | app/models/chip_implant.ts:290 | two sorted lists with the same elements, counted with multiplicity, are equal |
| Js.SortDependsOnlyOnContents | app/models/chip_implant.ts:290 | sorting two lists with the same elements, counted with multiplicity, gives the same result |
| Shapes.Spread | app/models/chip_implant.ts:131-134 | object spread: the result has both key sets, and the later object wins on a shared key |
| Shapes.BandOf | app/models/chip.ts:14-18 | FREQ_MAP puts exactly 13.56 MHz in HF and both low frequencies in LF |
| Mods.NewMod | app/models/mod.ts:38-48 | the constructor keeps name, type and description; a missing install method becomes "Unknown" and missing features become empty |
| Mods.TypeOf | app/models/mod.ts:51-53 | the type of a plain mod is its name |
| Mods.ToString | app/models/mod.ts:161-163 | the string form of a mod is its type, which is its name |
| Mods.Features | app/models/mod.ts:55-57 | the features getter returns the record given to the constructor |
| Mods.Details | app/models/mod.ts:59-61 | a plain mod has no details |
| Mods.DefaultSummary | app/models/mod.ts:64-71 | one line per feature key, named after the key, with the feature's string form as its value |
| Mods.FirstNumberRun | app/models/mod.ts:379-382 | the match is the leftmost, longest run of digits, commas and dots, and it is absent exactly when no such character occurs |
| Mods.RunIsFirstOccurrence | app/models/mod.ts:395 | `replace` finds the matched number at the position where the match was found, since no number character comes before it |
| Mods.NumberToLocalizedNumber | app/models/mod.ts:372-396 | text without a number is returned unchanged; otherwise it returns the original if the comma-free number does not parse, or else the text with its first number replaced by the formatted one |
| Chips.NewChip | app/models/chip.ts:71-93 | UID lengths and frequencies become lists; every feature left out of the overrides is unsupported; the ISO list defaults to empty; given features are kept |
| Chips.FrequenciesMembership | app/models/chip.ts:103-109 | a frequency belongs to a chip list exactly when some chip in it has that frequency; a magic chip's frequency is that of the chips it emulates |
| Chips.FrequencyLists | app/models/chip.ts:105-107 | there is one frequency list per chip, in order |
| Chips.FrequenciesAreFlatMap | app/models/chip.ts:103-109 | the frequencies of a chip list are the flattened map of the per-chip frequencies |
| Chips.FrequenciesSnoc | app/models/chip.ts:105-107 | appending a chip appends its frequencies |
| Chips.FrequenciesAppend | app/models/chip.ts:105-107 | the frequencies of a concatenation of chip lists are the concatenation of their frequencies |
| Chips.FrequenciesOfFour | app/models/chip.ts:103-109 | the frequencies of four chips are their own frequencies one after the other |
| Chips.NewT5577 | app/models/chip.ts:187-202 | building the T5577 with its six emulated chips gives the catalogue's T5577 entry |
| Chips.ChipMap | app/models/chip.ts:378-405 | CHIP_MAP has an entry for exactly its listed keys, and each entry's name is its key |
| Chips.T5577Frequencies | app/models/chip.ts:187-202 | the T5577 reports the frequencies of its six emulated LF chips, all in band LF |
| Chips.UltimateGen4Frequencies | app/models/chip.ts:338-353 | the Ultimate Gen4 reports four 13.56 MHz frequencies, all in band HF |
| Chips.MagicMIFAREFrequencies | app/models/chip.ts:355-365 | the magic MIFARE chips of generations 1a and 2 each report one 13.56 MHz frequency |
| Chips.ICODEDNAExclusive | app/models/chip.ts:317-334 | an ICODE DNA supports Spark exactly when it is built for Spark, and NDEF exactly when it is not |
| Chips.FidesmoKeepsP71 | app/models/chip.ts:250-257 | the Fidesmo P71 keeps the P71's NDEF, JCOP, cryptographic and ISO descriptors and adds Spark and a disabled payment |
| ChipImplants.ChipDescriptor | app/models/chip_implant.ts:128-130 | only a known chip feature key other than `iso` yields a descriptor to merge |
| ChipImplants.MergeKeysEffect | app/models/chip_implant.ts:130-135 | merging a chip overwrites each supported key with a spread of the old and the chip's descriptor and leaves every other key unchanged |
| ChipImplants.MergeKeysStep | app/models/chip_implant.ts:130-135 | the inner loop merges the chip's keys one at a time, in order |
| ChipImplants.MergeChipEffect | app/models/chip_implant.ts:128-136 | after one chip, a key the chip supports holds the spread, and every other key keeps its old descriptor |
| ChipImplants.LaterChipWins | app/models/chip_implant.ts:128-136 | an attribute of the last chip's supported feature is the one the implant ends up with |
| ChipImplants.UntouchedKey | app/models/chip_implant.ts:128-136 | a key that no chip supports keeps its own descriptor, and is present exactly when it was before |
| ChipImplants.CryptographyNeverMerged | app/models/chip_implant.ts:128-136 | `cryptography` and `iso` are never added or changed by the merge |
| ChipImplants.SupportedAfterMerge | app/models/chip_implant.ts:128-136 | a key that is supported before the merge, or that some chip supports, is supported afterwards |
| ChipImplants.DataSharingFromChips | app/models/chip_implant.ts:137-139 | for an implant without NDEF, Spark or data sharing of its own, data sharing is switched on exactly when a chip supports NDEF or Spark, and it then holds just `supported: true` |
| ChipImplants.MergedKeyKept | app/models/chip_implant.ts:106-139 | a key other than data sharing that no chip supports keeps the implant's own descriptor |
| ChipImplants.FrequencyLineNoneIff | app/models/chip_implant.ts:251-268 | the frequency line is missing exactly when the implant has no frequency |
| ChipImplants.FrequencyValueCases | app/models/chip_implant.ts:251-268 | the line says "Dual" exactly when both bands occur, and "LF" or "HF" exactly when only that band occurs |
| ChipImplants.DataSharingTokens | app/models/chip_implant.ts:276-289 | there are rows exactly when some chip supports Spark or NDEF; every row is "Spark" or the NDEF capacity of an NDEF chip |
| ChipImplants.DataSharingTokensCounts | app/models/chip_implant.ts:276-289 | the rows are, counted with multiplicity, one "Spark" per Spark chip and one capacity per NDEF chip, so two chips with the same capacity give two rows |
| ChipImplants.DataSharingLine | app/models/chip_implant.ts:276-301 | there is a data-sharing line exactly when some chip supports Spark or NDEF; its value is the first sorted row alone, or the first two sorted rows joined by " / " |
| ChipImplants.DataSharingLineFromCounts | app/models/chip_implant.ts:276-301 | the line's value is determined by the sorted list of one "Spark" per Spark chip and one capacity per NDEF chip |
| ChipImplants.DataSharingPicksSmallest | app/models/chip_implant.ts:290-299 | the first sorted row, which the line leads with, is the least of the rows |
| ChipImplants.MagicDescriptors | app/models/chip_implant.ts:310-315 | the magic descriptors are empty exactly when no chip is magic, and every one is supported |
| ChipImplants.PushesOnlyItself | app/models/chip_implant.ts:326-332 | the per-frequency push adds only the chip itself, never another chip |
| ChipImplants.BucketHoldsEmulated | app/models/chip_implant.ts:321-334 | a bucket holds only emulated chips |
| ChipImplants.MagicValue | app/models/chip_implant.ts:336-369 | every case of the source in terms of the bucket labels: no buckets give no value; equal labels with HF entries give "Many LF and HF"; different labels give "<LF label> LF,\n <HF label> HF"; a single band gives its label, with the band appended when the implant has several chips |
| ChipImplants.LabelCases | app/models/chip_implant.ts:336-348 | a bucket's label is empty exactly for an empty bucket or a lone unnamed chip, "Many" for several chips, and the chip's name for one |
| ChipImplants.MagicLine | app/models/chip_implant.ts:317-370 | there is a magic line exactly when some chip is magic, and its value is the magic value of the LF and HF buckets of the magic descriptors and the chip count |
| ChipImplants.MagicBucketSizes | app/models/chip_implant.ts:321-334 | the two buckets together hold one entry per frequency of all emulated chips |
| ChipImplants.MagicBucketHoldsEmulated | app/models/chip_implant.ts:321-334 | every bucket entry is one of the emulated chips |
| ChipImplants.PushesPartition | app/models/chip_implant.ts:326-332 | each frequency of a chip lands in exactly one of the two buckets |
| ChipImplants.BucketPartition | app/models/chip_implant.ts:321-334 | the buckets hold one entry for each frequency of the emulated chips |
| ChipImplants.PushesSingleBand | app/models/chip_implant.ts:326-332 | a chip with all its frequencies in one band fills only that band's bucket |
| ChipImplants.BucketSingleBand | app/models/chip_implant.ts:321-334 | emulated chips with all frequencies in one band leave the other bucket empty |
| ChipImplants.BlinkLine | app/models/chip_implant.ts:217-229 | there is a blink line exactly when the merged blink feature is supported; it names the first chip for a two-chip implant and says "Yes" otherwise |
| ChipImplants.Cryptography | app/models/chip_implant.ts:231-235 | reading the cryptography list fails exactly when the implant has chips, because chip records have no `cryptography` feature; otherwise the list is empty |
| ChipImplants.CryptographyLine | app/models/chip_implant.ts:237-245 | the cryptography line fails exactly when the implant has chips, and otherwise is missing |
| ChipImplants.Temperature | app/models/chip_implant.ts:389-400 | the temperature feature comes from a chip that supports temperature when there is one, and otherwise from the implant's own record; it is supported exactly when one of these is |
| ChipImplants.SensorsLine | app/models/chip_implant.ts:402-413 | there is a sensors line exactly when temperature is supported; its text depends on whether pulse oximetry is supported |
| ChipImplants.FeaturesView | app/models/chip_implant.ts:156-204 | smartphone support means some HF frequency; legacy access control means some LF frequency; digital security mirrors JCOP; sensors are temperature or pulse oximetry |
| ChipImplants.SmartphoneIsos | app/models/chip_implant.ts:206-215 | the option list holds exactly the ISO standards of the chips that have a 13.56 MHz frequency |
| ChipImplants.AllIsoNames | app/models/chip_implant.ts:441-463 | every ISO name listed is the name of a standard |
| ChipImplants.Details | app/models/chip_implant.ts:441-463 | the details give no smartphone ISO names, the implant's temperature, and the `supported` attribute of the Spark descriptor |
| ChipImplants.SummaryCandidates | app/models/chip_implant.ts:417-436 | a chipless implant has eight candidate lines, and each present one has the feature of its position: frequency, data sharing, blink, digital security, cryptography, magic, payment, sensors |
| ChipImplants.SummaryOf | app/models/chip_implant.ts:417-439 | the summary fails exactly when the implant has chips; otherwise it has at most eight lines |
| ChipImplants.ChiplessSummary | app/models/chip_implant.ts:417-439 | a chipless implant's summary succeeds and is the blink line, when present, followed by the sensors line, when present |
| ChipImplants.CompactThirdAndLast | app/models/chip_implant.ts:431-436 | of eight candidates where only the third and the last may be present, compacting keeps those two, in order |
| ChipImplants.ChipImplant.constructor | app/models/chip_implant.ts:98-140 | name, type, install method, chips and form factor come from the metadata or their defaults; the stored features are the merged record |
| ChipImplants.ChipImplant.UidLength | app/models/chip_implant.ts:142-144 | the implant-level UID length list is always empty |
| ChipImplants.ChipImplant.Frequency | app/models/chip_implant.ts:247-249 | the implant's frequencies are the flattened frequencies of its chips |
| ChipImplants.ChipImplant.SummaryFrequency | app/models/chip_implant.ts:251-268 | the loop-built line equals the frequency line of the chips' frequencies |
| ChipImplants.ChipImplant.SummaryDataSharing | app/models/chip_implant.ts:276-301 | the loop-built line equals the data-sharing line, so it is present exactly when a chip supports Spark or NDEF and shows the first sorted row, or the first two joined by " / " |
| ChipImplants.ChipImplant.SummaryMagic | app/models/chip_implant.ts:317-370 | the loop-built buckets give the magic line, whose value is the magic value of the LF and HF buckets and the chip count |
| ChipImplants.ChipImplant.SummaryPayment | app/models/chip_implant.ts:372-387 | the loop over the chips gives the payment line |
| ChipImplants.ChipImplant.Summary | app/models/chip_implant.ts:417-439 | the summary getter equals the specification summary of the chips and the stored features |
| ChipImplants.MergeAllChips | app/models/chip_implant.ts:128-136 | the constructor's outer loop merges the chips one after the other, giving the merged record of all of them |
| ChipImplants.MergeChipInto | app/models/chip_implant.ts:130-135 | the inner loop over one chip's feature keys gives that chip's merge |
| ChipImplants.PushEmulated | app/models/chip_implant.ts:321-334 | the bucket-filling loop appends exactly each band's bucket |
| ChipImplants.PushPerFrequency | app/models/chip_implant.ts:326-332 | the inner loop appends the chip once per frequency to the matching band |
| ChipImplants.Create | app/models/chip_implant.ts:98-104 | construction throws a construction error exactly when the name is missing or empty, and otherwise gives a fresh implant with that name |
| ChipImplantRegistry.RegistryKeysAreNames | app/models/chip_implant.ts:466-730 | every registry key is the name of the implant it builds |
| ChipImplantRegistry.BuildFrom | app/models/chip_implant.ts:466-730 | in a registry whose keys are the implants' names, a lookup builds an implant exactly when the key occurs, and the implant carries that name |
| ChipImplantRegistry.Build | app/models/chip_implant.ts:466-730 | looking up a key of CHIP_IMPLANT_MAP builds an implant exactly when the key is registered, and the implant carries that name |
| ChipImplantExamples.LoneManyLF | app/models/chip_implant.ts:336-369 | a lone magic chip emulating several LF chips and no HF chip shows "Many", without a band |
| ChipImplantExamples.PlainThenManyLF | app/models/chip_implant.ts:336-369 | a plain chip followed by such an LF emulator shows "Many LF" |
| ChipImplantExamples.LoneSingleHF | app/models/chip_implant.ts:336-369 | a lone magic chip emulating one 13.56 MHz chip shows that chip's name |
| ChipImplantExamples.HFThenLF | app/models/chip_implant.ts:251-268 | an HF-only chip followed by a chip with an LF frequency makes the implant "Dual" |
| ChipImplantExamples.LoneNdefChip | app/models/chip_implant.ts:276-301 | a lone NDEF chip without Spark shows its capacity alone |
| ChipImplantExamples.LoneSparkNdefChip | app/models/chip_implant.ts:276-301 | a lone chip with Spark and an NDEF capacity that sorts before "Spark" shows "<capacity> / Spark" |
| ChipImplantExamples.LonePayment | app/models/chip_implant.ts:372-387 | a lone chip shows "Yes" when payment is enabled, "Disabled" when it is only supported, and no line otherwise |
| ChipImplantExamples.MixedMagicPair | app/models/chip_implant.ts:336-369 | an HF magic chip emulating one chip, beside an LF magic chip emulating several, gives "Many LF,\n <name> HF" |
| ChipImplantExamples.XEMMagic | app/models/chip_implant.ts:552-559 | the xEM's T5577 shows magic "Many" |
| ChipImplantExamples.NExTMagic | app/models/chip_implant.ts:536-543 | the NExT's T5577 beside an NTAG216 shows magic "Many LF" |
| ChipImplantExamples.FlexM1Magic | app/models/chip_implant.ts:492-498 | the flexM1 G1a shows magic with the emulated chip's name |
| ChipImplantExamples.XMagicG1aMagic | app/models/chip_implant.ts:609-616 | the xMagic G1a shows "Many LF" and the MIFARE Classic chip as HF |
| ChipImplantExamples.NExTFrequency | app/models/chip_implant.ts:536-543 | the NExT is dual-frequency |
| ChipImplantExamples.TwoRowsSwapped | app/models/chip_implant.ts:290-299 | two out-of-order rows are shown sorted and joined by " / " |
| ChipImplantExamples.TwoNdefChips | app/models/chip_implant.ts:276-301 | two NDEF chips of the same capacity show that capacity twice, joined by " / " |
| ChipImplantExamples.FlexNTDataSharing | app/models/chip_implant.ts:506-512 | the flexNT shows its NTAG216 capacity "888 B" |
| ChipImplantExamples.ApexDataSharing | app/models/chip_implant.ts:668-675 | the Apex Flex shows "32 kB / Spark" |
| ChipImplantExamples.PaymentExamples | app/models/chip_implant.ts:372-387 | a payment chip shows "Yes", a Fidesmo P71 shows "Disabled", and a chip without payment shows nothing |
| ChipImplantExamples.LoneTemperatureChip | app/models/chip_implant.ts:402-413 | one temperature chip and no pulse oximetry give "Has temperature sensor" |
| ChipImplantExamples.BlinkOfPair | app/models/chip_implant.ts:217-229 | a two-chip implant with blink names its first chip |
| ChipImplantRegistry.XBTSensors | app/models/chip_implant.ts:544-551 | the xBT shows the temperature sensor |
| ChipImplantRegistry.NExTv2Blink | app/models/chip_implant.ts:695-706 | the NExT v2 blink line names its NTAG I2C chip |
| Magnets.NewMagnet | app/models/magnet.ts:14-20 | each missing field becomes "Unknown", and each given field is kept |
| Magnets.NewMagnetRoundTrip | app/models/magnet.ts:14-20 | rebuilding a magnet from its own fields gives it back, and a construction yields a given magnet exactly when the defaulted arguments match it |
| Magnets.UnknownNamesDefault | app/models/magnet.ts:3-12 | "Unknown" names exactly the default type and the default orientation |
| MagnetImplants.EncapsulationOf | app/models/magnet_implant.ts:36-40 | a missing encapsulation, type or material becomes "Unknown" |
| MagnetImplants.Create | app/models/magnet_implant.ts:26-42 | construction fails exactly when the name is missing or empty; otherwise the implant is a "Magnet", installed "Unknown", with its magnets as a list |
| MagnetImplants.FieldStrength | app/models/magnet_implant.ts:44-46 | one field strength per magnet, in order |
| MagnetImplants.SummaryEncapsulation | app/models/magnet_implant.ts:56-78 | the material alone for an unknown type; with "  Encased" for casing or "  Coated" for coating |
| MagnetImplants.Localized | app/models/magnet_implant.ts:88-90 | each field strength is localised by the number helper |
| MagnetImplants.SummaryFieldStrength | app/models/magnet_implant.ts:80-92 | the line is missing exactly when every magnet's strength is "Unknown"; otherwise it lists the localised strengths joined by ", " |
| MagnetImplants.CoreTypes | app/models/magnet_implant.ts:98 | the core names are exactly the magnets' type names, each once |
| MagnetImplants.CoreTypesFirstOccurrence | app/models/magnet_implant.ts:98 | the core names are in the order in which the types first occur among the magnets |
| MagnetImplants.CoreOfOneType | app/models/magnet_implant.ts:96-99 | magnets all of one type give that type's name as the core |
| MagnetImplants.Summary | app/models/magnet_implant.ts:94-104 | core first and encapsulation last; the field-strength line lies between them exactly when it is present |
| MagnetImplants.GlassCasedBehaves | app/models/magnet_implant.ts:107-119 | a glass-cased entry with a non-empty name other than the TiTAN builds under its own name, with a neodymium core and no field-strength line |
| MagnetImplants.TiTANBehaves | app/models/magnet_implant.ts:120-131 | the TiTAN entry builds under its name, with a neodymium core and a field-strength line |
| MagnetImplants.MagnetRegistry | app/models/magnet_implant.ts:107-132 | every registered magnet implant builds with its key as name and a neodymium core; only the TiTAN has a field-strength line |
| MagnetImplants.TiTANNumberRun | app/models/mod.ts:379-382 | the number found in "2.9 kG" is "2.9", at the start, and it has no commas to remove |
| MagnetImplants.TiTANFieldStrength | app/models/magnet_implant.ts:120-131 | "2.9 kG" is shown as the localised 2.9 followed by " kG" |
| MagnetImplants.RegistryEncapsulation | app/models/magnet_implant.ts:107-132 | the xG3 shows "Glass  Encased" and the TiTAN shows "Titanium  Encased" |
| Members.Placeholder | app/models/member.ts:21-26 | an unknown name becomes an "Other Mod" with install method "Unknown" and no features |
| Members.ResolveMods | app/models/member.ts:18-27 | there is one mod per name, in order: the registry's when the name is known, and a placeholder when it is not |
| Members.Names | app/models/member.ts:57-60 | the names of the mods, in order |
| Members.CountsAreMultiplicities | app/models/member.ts:57-60 | the frequency record holds exactly the names that occur, each with its number of occurrences |
| Members.DuplicatesMeaning | app/models/member.ts:53-70 | the duplicates hold exactly the names that occur at least twice, each with its number of occurrences |
| Members.ImplantsKeepRepeats | app/models/member.ts:41-50 | each implant is kept as often as the member lists it, and every other mod is dropped |
| Members.RepeatedImplantIsDuplicate | app/models/member.ts:41-70 | an implant the member lists twice has its name among the duplicates |
| Members.PlaceholdersAreImplants | app/models/member.ts:41-50 | placeholders are never typed "other_mod", so every unknown name counts as an implant |
| Members.Member.constructor | app/models/member.ts:12-28 | a name is set only when it is non-empty; the mods are the resolved names, one per name given; both caches start empty |
| Members.Member.Mods | app/models/member.ts:31-33 | the getter returns the member's resolved mods |
| Members.Member.NumberOfMods | app/models/member.ts:36-38 | the count is the length of the mods list, which the constructor makes equal to the number of names given |
| Members.Member.Implants | app/models/member.ts:41-50 | returns the implants (mods not typed "other_mod") and caches them, whether or not a cache was filled |
| Members.Member.DuplicateImplants | app/models/member.ts:53-70 | returns the implant names occurring more than once, with their counts, and caches them |
| Members.CountNames | app/models/member.ts:57-60 | the counting loop builds the frequency record of the implant names |
| Members.KeepRepeated | app/models/member.ts:62-67 | the second loop keeps exactly the names counted more than once, with their counts |

## Left out

- `Members.Member.Mods`, `Members.Member.Implants` and
  `Members.Member.DuplicateImplants`: the source hands out its internal
  mods array and the cached array and record themselves, so a caller that
  mutates them changes later reads. The model treats them as values, so
  it does not capture that aliasing. The cache property of `Valid()` holds
  only while no caller mutates what the getters return.
- A magic chip with no emulated-chip list: the source's `frequency` getter
  then returns `undefined`. The model returns an empty list.
- Sort order: JavaScript's default `sort` compares UTF-16 code units.
  `Js.Sort` compares Dafny characters, which differs only outside the Basic
  Multilingual Plane.
- `mod_type`, `install_method` and `form_factor`: the chip-implant getters
  for these read back their own value. They are modelled as the plain
  fields that the constructor sets.
- Console logging is not modelled.
- `Intl.NumberFormat`, `navigator.language` and `parseFloat`: these are
  folded into the `format` parameter of `Mods.NumberToLocalizedNumber`.
  The parameter is applied to the comma-free number. `parseFloat` is
  taken to give NaN exactly when the token starts neither with a digit
  nor with a dot followed by a digit.
- Special `$` patterns in the replacement string of `String.replace` are
  not interpreted.
- The registry entries DT xHT, VivoKey Spark2, VivoKey Thermo and
  VivoKey Pulse are left out. They need the chips `HitagS2048`,
  `NTAG413DNA` and `NTAG5Boost`, which `chip_implant.ts:29-32` imports.
  `chip.ts` does not define them (it has `Hitag2048`), so these four
  factories cannot build in the source either.
- `ChipImplants.Details` does not model the constant empty objects it
  reports for RFID, digital security and cryptography. Its sensor entries
  are the temperature and pulse-oximetry descriptors themselves, since
  `?? false` never applies to the descriptor objects the getter reads.
- `Mods.DefaultSummary` gives `String(value)` of a descriptor as the
  descriptor's string form. The key order follows the feature list.
- `floatToLocalizedPercentage` and the other unused helpers in `mod.ts`
  are not modelled.
- `ALL_MODS` is the registry of all mods, which `member.ts` imports. It
  is a `map` parameter of `Members`.
- `other_mod.ts` is not part of this model. Registered mods are taken as
  given values.
- `MagnetImplants.Features` carries no contract of its own. Its parts are
  stated by `FieldStrength` and `CoreTypes`.
- `MagnetImplants.Create` reuses the message "Chip Implant name required",
  as the source does.
- A key that a chip descriptor spreads in with the value `undefined`
  reads as missing.
- `ChipImplants.SummaryOf` fails for every implant that has a chip. The
  source reads `c.features.cryptography`, which no chip record has. The
  model keeps this behaviour and states it.
- `ChipImplants.Details`: the relevant-standard filter of `details`
  admits only names spelled with an "iso" prefix, which no chip's
  standard has. Its smartphone list is therefore always empty, and the
  model keeps that.
- `ChipImplants.PaymentLine` and `ChipImplants.DigitalSecurityLine`
  carry no contract of their own. `ChipImplantExamples.PaymentExamples`
  and `ChipImplants.ChipImplant.SummaryPayment` state the payment line.
