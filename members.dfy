/**
 * A club member (app/models/member.ts): a list of mods looked up by name in
 * the mod registry, the implants among them and the implant names owned
 * more than once; the last two are computed on first use and cached.
 */
module Members {
  import opened Wrappers
  import opened Js
  import opened Mods

  /** The stand-in `Mod` for a name the registry does not know. */
  function Placeholder(name: string): (m: Mod)
    ensures m.name == name && m.modType == "Other Mod" && m.installMethod == "Unknown"
    ensures m.description.None? && m.features == []
  {
    NewMod(ModMetadata(name, "Other Mod", Some("Unknown"), None), None)
  }

  /** `ALL_MODS[nm] || new Mod(...)`: a registered mod object is always truthy. */
  function Resolve(name: string, allMods: map<string, Mod>): Mod {
    if name in allMods then allMods[name] else Placeholder(name)
  }

  /** `modNames.map(...)`: one mod per name, in order, the registry's or a placeholder. */
  function ResolveMods(modNames: seq<string>, allMods: map<string, Mod>): (r: seq<Mod>)
    ensures |r| == |modNames|
    ensures forall i :: 0 <= i < |modNames| && modNames[i] in allMods ==> r[i] == allMods[modNames[i]]
    ensures forall i :: 0 <= i < |modNames| && modNames[i] !in allMods ==> r[i] == Placeholder(modNames[i])
  {
    seq(|modNames|, i requires 0 <= i < |modNames| => Resolve(modNames[i], allMods))
  }

  /** An implant: a mod whose type is not `"other_mod"`. */
  predicate IsImplant(m: Mod) {
    m.modType != "other_mod"
  }

  /** `this._mods.filter((m) => m.mod_type !== "other_mod")` */
  function ImplantsOf(mods: seq<Mod>): seq<Mod> {
    Filter(mods, IsImplant)
  }

  /** The names of a list of mods, in order. */
  function Names(s: seq<Mod>): (names: seq<string>)
    ensures |names| == |s|
    ensures forall i :: 0 <= i < |s| ==> names[i] == s[i].name
  {
    seq(|s|, i requires 0 <= i < |s| => s[i].name)
  }

  /** The `freq` record after the first loop has seen the mods of `s`. */
  function Counts(s: seq<Mod>): map<string, nat>
    decreases |s|
  {
    if s == [] then map[]
    else
      var c := Counts(s[..|s| - 1]);
      var n := s[|s| - 1].name;
      c[n := (if n in c then c[n] else 0) + 1]
  }

  /** The `duplicates` record: the counted names seen more than once. */
  function Duplicates(s: seq<Mod>): map<string, nat> {
    var c := Counts(s);
    map k | k in c && c[k] > 1 :: c[k]
  }

  /** `freq` holds exactly the names that occur, each with its number of occurrences. */
  lemma {:induction false} CountsAreMultiplicities(s: seq<Mod>)
    ensures forall k :: k in Counts(s) <==> multiset(Names(s))[k] > 0
    ensures forall k :: k in Counts(s) ==> Counts(s)[k] == multiset(Names(s))[k]
    decreases |s|
  {
    if s != [] {
      var init := s[..|s| - 1];
      CountsAreMultiplicities(init);
      assert Names(s) == Names(init) + [s[|s| - 1].name];
    }
  }

  /**
   * `duplicate_implants` holds exactly the names occurring at least twice,
   * each with its number of occurrences, so every value is at least 2.
   */
  lemma DuplicatesMeaning(s: seq<Mod>)
    ensures forall k :: k in Duplicates(s) <==> multiset(Names(s))[k] >= 2
    ensures forall k :: k in Duplicates(s) ==> Duplicates(s)[k] == multiset(Names(s))[k] && Duplicates(s)[k] >= 2
  {
    CountsAreMultiplicities(s);
  }

  /**
   * Placeholders are typed "Other Mod", never `"other_mod"`, so every name
   * the registry does not know is counted among the implants.
   */
  lemma PlaceholdersAreImplants(modNames: seq<string>, allMods: map<string, Mod>)
    ensures forall n <- modNames :: n !in allMods ==> Placeholder(n) in ImplantsOf(ResolveMods(modNames, allMods))
  {
    var mods := ResolveMods(modNames, allMods);
    forall n <- modNames | n !in allMods
      ensures Placeholder(n) in ImplantsOf(mods)
    {
      var i :| 0 <= i < |modNames| && modNames[i] == n;
      assert mods[i] == Placeholder(n);
      assert mods[i] in mods;
    }
  }

  /** `implants` keeps every implant as often as the member has it, and no other mod. */
  lemma ImplantsKeepRepeats(mods: seq<Mod>)
    ensures forall m :: multiset(ImplantsOf(mods))[m] == if IsImplant(m) then multiset(mods)[m] else 0
  {
    FilterCounts(mods, IsImplant);
  }

  /** A name occurs at least as often as each mod that carries it. */
  lemma {:induction false} NameCountsCoverMod(s: seq<Mod>, m: Mod)
    ensures multiset(Names(s))[m.name] >= multiset(s)[m]
    decreases |s|
  {
    if s != [] {
      var init := s[..|s| - 1];
      NameCountsCoverMod(init, m);
      assert s == init + [s[|s| - 1]];
      assert Names(s) == Names(init) + [s[|s| - 1].name];
    }
  }

  /** An implant the member owns twice or more is among the duplicates. */
  lemma RepeatedImplantIsDuplicate(mods: seq<Mod>, m: Mod)
    requires IsImplant(m) && multiset(mods)[m] >= 2
    ensures m.name in Duplicates(ImplantsOf(mods))
  {
    ImplantsKeepRepeats(mods);
    NameCountsCoverMod(ImplantsOf(mods), m);
    DuplicatesMeaning(ImplantsOf(mods));
  }

  class Member {
    /** `name`: set only for a truthy name. */
    var name: Option<string>
    /** `_mods`: never reassigned after construction. */
    const mods: seq<Mod>
    /** `_implantsCache`, null until `implants` is first read. */
    var implantsCache: Option<seq<Mod>>
    /** `_duplicateImplantsCache`, null until `duplicate_implants` is first read. */
    var duplicateImplantsCache: Option<map<string, nat>>

    /** A filled cache holds what a fresh computation would give. */
    ghost predicate Valid()
      reads this
    {
      (implantsCache.Some? ==> implantsCache.value == ImplantsOf(mods)) &&
      (duplicateImplantsCache.Some? ==> duplicateImplantsCache.value == Duplicates(ImplantsOf(mods)))
    }

    /** `allMods` stands for the `ALL_MODS` registry. */
    constructor(modNames: seq<string>, memberName: Option<string>, allMods: map<string, Mod>)
      ensures memberName.Some? && memberName.value != "" ==> name == memberName
      ensures !(memberName.Some? && memberName.value != "") ==> name.None?
      ensures mods == ResolveMods(modNames, allMods)
      ensures |mods| == |modNames|
      ensures implantsCache.None? && duplicateImplantsCache.None?
      ensures Valid()
    {
      if memberName.Some? && memberName.value != "" {
        name := memberName;
      } else {
        name := None;
      }
      mods := ResolveMods(modNames, allMods);
      implantsCache := None;
      duplicateImplantsCache := None;
    }

    /** The `mods` getter. */
    function Mods(): (ms: seq<Mod>)
      reads this
      ensures ms == mods
    {
      mods
    }

    /** `number_of_mods`: one per name given to the constructor. */
    function NumberOfMods(): (n: nat)
      reads this
      ensures n == |mods|
    {
      |mods|
    }

    /** The `implants` getter: the cached list, or the filtered mods, cached from now on. */
    method Implants() returns (r: seq<Mod>)
      requires Valid()
      modifies this
      ensures r == ImplantsOf(mods)
      ensures implantsCache == Some(r)
      ensures duplicateImplantsCache == old(duplicateImplantsCache) && name == old(name)
      ensures Valid()
    {
      if implantsCache.Some? {
        return implantsCache.value;
      }
      r := Filter(mods, IsImplant);
      implantsCache := Some(r);
    }

    /**
     * The `duplicate_implants` getter: the cached record, or one built by
     * counting implant names and keeping those above one, cached from now on.
     */
    method DuplicateImplants() returns (r: map<string, nat>)
      requires Valid()
      modifies this
      ensures r == Duplicates(ImplantsOf(mods))
      ensures duplicateImplantsCache == Some(r)
      ensures old(duplicateImplantsCache).Some? ==> implantsCache == old(implantsCache)
      ensures old(duplicateImplantsCache).None? ==> implantsCache == Some(ImplantsOf(mods))
      ensures name == old(name)
      ensures Valid()
    {
      if duplicateImplantsCache.Some? {
        return duplicateImplantsCache.value;
      }
      var implants := Implants();
      var freq := CountNames(implants);
      r := KeepRepeated(freq);
      duplicateImplantsCache := Some(r);
    }
  }

  /** The first loop: `freq[imp.name] = (freq[imp.name] || 0) + 1` for each implant in turn. */
  method CountNames(implants: seq<Mod>) returns (freq: map<string, nat>)
    ensures freq == Counts(implants)
  {
    freq := map[];
    for i := 0 to |implants|
      invariant freq == Counts(implants[..i])
    {
      assert implants[..i + 1][..i] == implants[..i];
      var n := implants[i].name;
      freq := freq[n := (if n in freq then freq[n] else 0) + 1];
    }
    assert implants[..|implants|] == implants;
  }

  /** The second loop: the keys of `freq` whose count exceeds one, with their counts. */
  method KeepRepeated(freq: map<string, nat>) returns (duplicates: map<string, nat>)
    ensures duplicates == map k | k in freq && freq[k] > 1 :: freq[k]
  {
    duplicates := map[];
    var remaining := freq.Keys;
    while remaining != {}
      invariant remaining <= freq.Keys
      invariant duplicates == map k | k in freq && k !in remaining && freq[k] > 1 :: freq[k]
      decreases remaining
    {
      var k :| k in remaining;
      if freq[k] > 1 {
        duplicates := duplicates[k := freq[k]];
      }
      remaining := remaining - {k};
    }
  }
}
