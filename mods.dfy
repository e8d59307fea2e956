/**
 * The `Mod` base of every implant (app/models/mod.ts): identity fields set
 * once at construction, an untyped feature record, the default summary, and
 * the number formatter used for magnet field strengths.
 */
module Mods {
  import opened Wrappers
  import opened Shapes
  import Js

  /** `ModMetadata`; `installMethod` and `description` are optional. */
  datatype ModMetadata = ModMetadata(
    name: string,
    modType: string,
    installMethod: Option<string>,
    description: Option<string>)

  /** A constructed `Mod`; `features` keeps the record's keys in insertion order. */
  datatype Mod = Mod(
    name: string,
    modType: string,
    installMethod: string,
    description: Option<string>,
    features: seq<(string, Descriptor)>)

  /**
   * The `Mod` constructor: name and type stored as given (no validation),
   * install method "Unknown" and description null when absent, and the
   * feature record `{}` when none is passed.
   */
  function NewMod(meta: ModMetadata, features: Option<seq<(string, Descriptor)>>): (m: Mod)
    ensures m.name == meta.name && m.modType == meta.modType
    ensures meta.installMethod.None? ==> m.installMethod == "Unknown"
    ensures meta.installMethod.Some? ==> m.installMethod == meta.installMethod.value
    ensures m.description == meta.description
    ensures features.None? ==> m.features == []
    ensures features.Some? ==> m.features == features.value
  {
    Mod(meta.name, meta.modType, meta.installMethod.GetOr("Unknown"), meta.description, features.GetOr([]))
  }

  /** The `type` getter: the mod's name. */
  function TypeOf(m: Mod): (t: string)
    ensures t == m.name
  {
    m.name
  }

  /** `toString()`: the mod's name, the same string as its type. */
  function ToString(m: Mod): (s: string)
    ensures s == TypeOf(m)
  {
    m.name
  }

  /** The `features` getter hands back the stored record unchanged. */
  function Features(m: Mod): (f: seq<(string, Descriptor)>)
    ensures f == m.features
  {
    m.features
  }

  /** The default `details` is the empty record. */
  function Details(m: Mod): (d: map<string, Descriptor>)
    ensures d == map[]
  {
    map[]
  }

  /** `String(obj)` of a descriptor object. */
  const ObjectString := "[object Object]"

  /**
   * The default `summary`: one line per feature key, in key order, whose
   * value is the descriptor object converted by `String`.
   */
  function DefaultSummary(m: Mod): (lines: seq<SummaryLine>)
    ensures |lines| == |m.features|
    ensures forall i :: 0 <= i < |lines| ==>
      lines[i].feature == m.features[i].0 && lines[i].value == ObjectString
  {
    seq(|m.features|, i requires 0 <= i < |m.features| => SummaryLine(m.features[i].0, ObjectString))
  }

  // ---------------------------------------------------------------
  // numberToLocalizedNumber
  // ---------------------------------------------------------------

  /** A character of the class `[\d,.]`. */
  predicate IsNumChar(c: char) {
    ('0' <= c <= '9') || c == ',' || c == '.'
  }

  predicate IsDigit(c: char) {
    '0' <= c <= '9'
  }

  /** The first index at or after `i` holding a `[\d,.]` character, or |s|. */
  function NextNumChar(s: string, i: nat): (j: nat)
    requires i <= |s|
    ensures i <= j <= |s|
    ensures j < |s| ==> IsNumChar(s[j])
    ensures forall k :: i <= k < j ==> !IsNumChar(s[k])
    decreases |s| - i
  {
    if i == |s| || IsNumChar(s[i]) then i else NextNumChar(s, i + 1)
  }

  /** The end of the run of `[\d,.]` characters starting at `i`. */
  function RunEnd(s: string, i: nat): (j: nat)
    requires i <= |s|
    ensures i <= j <= |s|
    ensures forall k :: i <= k < j ==> IsNumChar(s[k])
    ensures j < |s| ==> !IsNumChar(s[j])
    decreases |s| - i
  {
    if i == |s| || !IsNumChar(s[i]) then i else RunEnd(s, i + 1)
  }

  /**
   * `s.match(/[\d,.]+/)`: the leftmost run of `[\d,.]` characters, taken
   * as long as it goes, as the pair (start, end); None when there is none.
   */
  function FirstNumberRun(s: string): (r: Option<(nat, nat)>)
    ensures r.None? <==> forall k :: 0 <= k < |s| ==> !IsNumChar(s[k])
    ensures r.Some? ==> r.value.0 < r.value.1 <= |s|
    ensures r.Some? ==> forall k :: 0 <= k < r.value.0 ==> !IsNumChar(s[k])
    ensures r.Some? ==> forall k :: r.value.0 <= k < r.value.1 ==> IsNumChar(s[k])
    ensures r.Some? && r.value.1 < |s| ==> !IsNumChar(s[r.value.1])
  {
    var i := NextNumChar(s, 0);
    if i == |s| then None else Some((i, RunEnd(s, i)))
  }

  /** `t.replace(/,/g, "")` */
  function RemoveCommas(t: string): string {
    Js.Filter(t, (c: char) => c != ',')
  }

  /**
   * `isNaN(parseFloat(t))` for a string of digits and dots: no decimal
   * literal starts it (neither a digit nor a dot followed by a digit).
   */
  predicate ParsesToNaN(t: string) {
    !(|t| > 0 && IsDigit(t[0])) && !(|t| > 1 && t[0] == '.' && IsDigit(t[1]))
  }

  /** The first index at or after `from` where `pat` occurs in `s`. */
  function IndexOf(s: string, pat: string, from: nat): Option<nat>
    requires from <= |s|
    decreases |s| - from
  {
    if from + |pat| > |s| then None
    else if s[from..from + |pat|] == pat then Some(from)
    else if from == |s| then None
    else IndexOf(s, pat, from + 1)
  }

  /** `s.replace(pat, rep)` with a string pattern: only the first occurrence. */
  function ReplaceFirst(s: string, pat: string, rep: string): string {
    match IndexOf(s, pat, 0)
    case None => s
    case Some(i) =>
      if i + |pat| <= |s| then s[..i] + rep + s[i + |pat|..] else s
  }

  /** No occurrence of a run's text begins before the run itself. */
  lemma {:induction false} RunIsFirstOccurrence(s: string, start: nat, end: nat, from: nat)
    requires from <= start < end <= |s|
    requires IsNumChar(s[start])
    requires forall k :: 0 <= k < start ==> !IsNumChar(s[k])
    ensures IndexOf(s, s[start..end], from) == Some(start)
    decreases start - from
  {
    var pat := s[start..end];
    if from < start {
      assert s[from..from + |pat|][0] == s[from] != s[start] == pat[0];
      RunIsFirstOccurrence(s, start, end, from + 1);
    }
  }

  /**
   * `numberToLocalizedNumber(value)`. `format` stands for
   * `parseFloat` followed by the locale's `Intl.NumberFormat`, applied to
   * the comma-free numeric token. The value comes back unchanged when it
   * holds no `[\d,.]` run, or when its first run does not parse as a
   * number; otherwise only that run is replaced by its formatted form and
   * the text around it is kept.
   */
  function NumberToLocalizedNumber(value: string, format: string -> string): (r: string)
    ensures FirstNumberRun(value).None? ==> r == value
    ensures FirstNumberRun(value).Some? ==>
      var (start, end) := FirstNumberRun(value).value;
      var token := RemoveCommas(value[start..end]);
      (ParsesToNaN(token) ==> r == value) &&
      (!ParsesToNaN(token) ==> r == value[..start] + format(token) + value[end..])
  {
    match FirstNumberRun(value)
    case None => value
    case Some((start, end)) =>
      var numberString := value[start..end];
      var normalized := RemoveCommas(numberString);
      if ParsesToNaN(normalized) then value
      else
        RunIsFirstOccurrence(value, start, end, 0);
        ReplaceFirst(value, numberString, format(normalized))
  }
}
