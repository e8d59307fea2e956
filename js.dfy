/**
 * The JavaScript built-ins the implant model relies on: `Array.isArray`
 * normalisation, `find`, `filter`, `flat`, dropping nulls, `join`, the
 * default `sort` of strings and de-duplication through a `Set`.
 */
module Js {
  import opened Wrappers

  /** An argument typed `T[] | T`. */
  datatype OneOrMany<T> = One(item: T) | Many(items: seq<T>)

  /** `Array.isArray(x) ? x : [x]` */
  function AsArray<T>(x: OneOrMany<T>): (r: seq<T>)
    ensures x.One? ==> r == [x.item]
    ensures x.Many? ==> r == x.items
  {
    match x
    case One(i) => [i]
    case Many(s) => s
  }

  /** The index `find` stops at, or |s| when no element satisfies `p`. */
  function FindIndex<T>(s: seq<T>, p: T -> bool): (i: nat)
    ensures i <= |s|
    ensures i < |s| ==> p(s[i])
    ensures forall j :: 0 <= j < i ==> !p(s[j])
  {
    if s == [] then 0
    else if p(s[0]) then 0
    else
      var k := FindIndex(s[1..], p);
      assert forall j :: 1 <= j < 1 + k ==> s[j] == s[1..][j - 1];
      1 + k
  }

  /** `s.filter(p)`, defined from the end so that loops can extend it. */
  function Filter<T(!new)>(s: seq<T>, p: T -> bool): (r: seq<T>)
    ensures |r| <= |s|
    ensures forall x :: x in r <==> x in s && p(x)
  {
    if s == [] then []
    else Filter(s[..|s| - 1], p) + (if p(s[|s| - 1]) then [s[|s| - 1]] else [])
  }

  /** Each value that passes keeps its number of occurrences; the others have none. */
  lemma {:induction false} FilterCounts<T(!new)>(s: seq<T>, p: T -> bool)
    ensures forall x :: multiset(Filter(s, p))[x] == if p(x) then multiset(s)[x] else 0
    decreases |s|
  {
    if s != [] {
      assert s == s[..|s| - 1] + [s[|s| - 1]];
      FilterCounts(s[..|s| - 1], p);
    }
  }

  /** Filtering a concatenation filters each part, keeping the order. */
  lemma {:induction false} FilterAppend<T(!new)>(a: seq<T>, b: seq<T>, p: T -> bool)
    ensures Filter(a + b, p) == Filter(a, p) + Filter(b, p)
    decreases |b|
  {
    if b == [] {
      assert a + b == a;
    } else {
      var init, x := b[..|b| - 1], b[|b| - 1];
      assert a + b == (a + init) + [x] && b == init + [x];
      FilterSnoc(a + init, x, p);
      FilterSnoc(init, x, p);
      FilterAppend(a, init, p);
    }
  }

  /** Filtering a list with one more element at the end. */
  lemma FilterSnoc<T(!new)>(s: seq<T>, x: T, p: T -> bool)
    ensures Filter(s + [x], p) == Filter(s, p) + (if p(x) then [x] else [])
  {
    assert (s + [x])[..|s|] == s;
  }

  /** Nothing passes a filter that no element satisfies. */
  lemma {:induction false} FilterNone<T(!new)>(s: seq<T>, p: T -> bool)
    requires forall x <- s :: !p(x)
    ensures Filter(s, p) == []
  {
    if s != [] {
      assert s[|s| - 1] in s;
      FilterNone(s[..|s| - 1], p);
    }
  }

  /** `ss.flat()`: the lists concatenated in order. */
  function Flatten<T>(ss: seq<seq<T>>): seq<T> {
    if ss == [] then [] else ss[0] + Flatten(ss[1..])
  }

  lemma {:induction false} FlattenAppend<T>(a: seq<seq<T>>, b: seq<seq<T>>)
    ensures Flatten(a + b) == Flatten(a) + Flatten(b)
  {
    if a == [] {
      assert a + b == b;
    } else {
      assert (a + b)[1..] == a[1..] + b;
      FlattenAppend(a[1..], b);
    }
  }

  /** `lines.filter((l) => l !== null)`: the present values, in order. */
  function Compact<T(!new)>(s: seq<Option<T>>): (r: seq<T>)
    ensures |r| <= |s|
    ensures forall x :: x in r <==> Some(x) in s
  {
    if s == [] then []
    else
      var init := Compact(s[..|s| - 1]);
      assert forall o :: o in s <==> o in s[..|s| - 1] || o == s[|s| - 1];
      init + (if s[|s| - 1].Some? then [s[|s| - 1].value] else [])
  }

  /** Each present value keeps its number of occurrences. */
  lemma {:induction false} CompactCounts<T(!new)>(s: seq<Option<T>>)
    ensures forall x :: multiset(Compact(s))[x] == multiset(s)[Some(x)]
    decreases |s|
  {
    if s != [] {
      assert s == s[..|s| - 1] + [s[|s| - 1]];
      CompactCounts(s[..|s| - 1]);
    }
  }

  /** Dropping the nulls of a concatenation drops them from each part, keeping the order. */
  lemma {:induction false} CompactAppend<T(!new)>(a: seq<Option<T>>, b: seq<Option<T>>)
    ensures Compact(a + b) == Compact(a) + Compact(b)
    decreases |b|
  {
    if b == [] {
      assert a + b == a;
    } else {
      var init := b[..|b| - 1];
      assert (a + b)[..|a + b| - 1] == a + init;
      CompactAppend(a, init);
    }
  }

  /** A list of nulls leaves nothing. */
  lemma {:induction false} CompactAllAbsent<T(!new)>(s: seq<Option<T>>)
    requires forall o <- s :: o.None?
    ensures Compact(s) == []
  {
    if s != [] {
      assert s[|s| - 1] in s;
      CompactAllAbsent(s[..|s| - 1]);
    }
  }

  /** A single present value is kept, a single null is dropped. */
  lemma CompactOne<T(!new)>(o: Option<T>)
    ensures o.Some? ==> Compact([o]) == [o.value]
    ensures o.None? ==> Compact([o]) == []
  {
    assert [o][..0] == [];
  }

  /** `items.join(sep)` */
  function Join(items: seq<string>, sep: string): string {
    if |items| == 0 then ""
    else if |items| == 1 then items[0]
    else items[0] + sep + Join(items[1..], sep)
  }

  /** `Array.from(new Set(s))`: each element once, at its first occurrence. */
  function Distinct<T(==,!new)>(s: seq<T>): (r: seq<T>)
    ensures forall x :: x in r <==> x in s
    ensures forall i, j :: 0 <= i < j < |r| ==> r[i] != r[j]
  {
    if s == [] then []
    else
      var d := Distinct(s[..|s| - 1]);
      assert forall x :: x in s <==> x in s[..|s| - 1] || x == s[|s| - 1];
      if s[|s| - 1] in d then d else d + [s[|s| - 1]]
  }

  /** Appending a value adds it at the end exactly when it has not occurred yet. */
  lemma DistinctSnoc<T(!new)>(s: seq<T>, x: T)
    ensures Distinct(s + [x]) == if x in s then Distinct(s) else Distinct(s) + [x]
  {
    assert (s + [x])[..|s|] == s;
  }

  /**
   * The values keep the order of their first occurrences: wherever the
   * later value of a pair occurs, the earlier one has already occurred.
   */
  lemma {:induction false} DistinctFirstOccurrenceOrder<T(!new)>(s: seq<T>)
    ensures forall i, j, k :: 0 <= i < j < |Distinct(s)| && 0 <= k < |s| && s[k] == Distinct(s)[j] ==>
      exists m :: 0 <= m < k && s[m] == Distinct(s)[i]
    decreases |s|
  {
    if s != [] {
      var init := s[..|s| - 1];
      var x := s[|s| - 1];
      var d := Distinct(init);
      var r := Distinct(s);
      DistinctFirstOccurrenceOrder(init);
      assert s == init + [x];
      DistinctSnoc(init, x);
      forall i, j, k | 0 <= i < j < |r| && 0 <= k < |s| && s[k] == r[j]
        ensures exists m :: 0 <= m < k && s[m] == r[i]
      {
        if k < |init| {
          assert init[k] == r[j];
          assert j < |d|;
          var m :| 0 <= m < k && init[m] == d[i];
          assert s[m] == r[i];
        } else {
          assert r[i] in d;
          var m :| 0 <= m < |init| && init[m] == r[i];
          assert s[m] == r[i];
        }
      }
    }
  }

  /** A non-empty list of one repeated value has that value as its only distinct element. */
  lemma {:induction false} DistinctOfConstant<T(!new)>(s: seq<T>, c: T)
    requires |s| > 0
    requires forall x <- s :: x == c
    ensures Distinct(s) == [c]
  {
    var init := s[..|s| - 1];
    assert s[|s| - 1] in s;
    if init != [] {
      assert forall x <- init :: x in s;
      DistinctOfConstant(init, c);
    }
  }

  /**
   * The order the default `Array.prototype.sort` puts strings in:
   * lexicographic by character, a proper prefix first.
   */
  predicate StrLe(a: string, b: string) {
    if a == [] then true
    else if b == [] then false
    else if a[0] != b[0] then a[0] < b[0]
    else StrLe(a[1..], b[1..])
  }

  lemma {:induction false} StrLeTotal(a: string, b: string)
    ensures StrLe(a, b) || StrLe(b, a)
  {
    if a != [] && b != [] && a[0] == b[0] {
      StrLeTotal(a[1..], b[1..]);
    }
  }

  lemma {:induction false} StrLeTransitive(a: string, b: string, c: string)
    requires StrLe(a, b) && StrLe(b, c)
    ensures StrLe(a, c)
  {
    if a != [] && b != [] && c != [] && a[0] == b[0] && b[0] == c[0] {
      StrLeTransitive(a[1..], b[1..], c[1..]);
    }
  }

  predicate Sorted(s: seq<string>) {
    forall i :: 0 <= i < |s| - 1 ==> StrLe(s[i], s[i + 1])
  }

  /** Insertion of `x` before the first element it does not follow. */
  function Insert(x: string, s: seq<string>): (r: seq<string>)
    ensures multiset(r) == multiset(s) + multiset{x}
    ensures |r| == |s| + 1
    ensures r[0] == x || (s != [] && r[0] == s[0])
    ensures Sorted(s) ==> Sorted(r)
  {
    if s == [] then [x]
    else if StrLe(x, s[0]) then [x] + s
    else
      StrLeTotal(x, s[0]);
      var t := Insert(x, s[1..]);
      assert s == [s[0]] + s[1..];
      assert Sorted(s) ==> Sorted(s[1..]) by {
        if Sorted(s) {
          forall i | 0 <= i < |s[1..]| - 1 ensures StrLe(s[1..][i], s[1..][i + 1]) {
            assert s[1..][i] == s[i + 1] && s[1..][i + 1] == s[i + 2];
          }
        }
      }
      assert Sorted(s) ==> StrLe(s[0], t[0]) by {
        if Sorted(s) && |s| > 1 { assert StrLe(s[0], s[1]); }
      }
      [s[0]] + t
  }

  /** The result of `rows.sort()` on strings: a sorted permutation of `s`. */
  function Sort(s: seq<string>): (r: seq<string>)
    ensures multiset(r) == multiset(s)
    ensures |r| == |s|
    ensures Sorted(r)
  {
    if s == [] then []
    else
      assert s == [s[0]] + s[1..];
      Insert(s[0], Sort(s[1..]))
  }

  /** In a sorted list the first element precedes every other. */
  lemma {:induction false} SortedFirstIsLeast(s: seq<string>, j: nat)
    requires Sorted(s) && j < |s|
    ensures StrLe(s[0], s[j])
  {
    if j == 0 {
      StrLeTotal(s[0], s[0]);
    } else {
      SortedFirstIsLeast(s, j - 1);
      StrLeTransitive(s[0], s[j - 1], s[j]);
    }
  }

  /** Two strings each ordered before the other are equal. */
  lemma {:induction false} StrLeAntisymmetric(a: string, b: string)
    requires StrLe(a, b) && StrLe(b, a)
    ensures a == b
  {
    if a != [] && b != [] {
      StrLeAntisymmetric(a[1..], b[1..]);
      assert a == [a[0]] + a[1..] && b == [b[0]] + b[1..];
    }
  }

  /** There is only one sorted arrangement of a collection of strings. */
  lemma {:induction false} SortedUnique(a: seq<string>, b: seq<string>)
    requires Sorted(a) && Sorted(b) && multiset(a) == multiset(b)
    ensures a == b
    decreases |a|
  {
    if a == [] {
      assert |b| == |multiset(b)| == 0;
    } else {
      assert |b| == |multiset(b)| == |multiset(a)| == |a|;
      SortedHeadsEqual(a, b);
      TailContents(a, b);
      SortedTail(a);
      SortedTail(b);
      SortedUnique(a[1..], b[1..]);
      assert a == [a[0]] + a[1..] && b == [b[0]] + b[1..];
    }
  }

  /** Two sorted arrangements of the same strings start with the same one. */
  lemma SortedHeadsEqual(a: seq<string>, b: seq<string>)
    requires Sorted(a) && Sorted(b) && multiset(a) == multiset(b) && a != [] && b != []
    ensures a[0] == b[0]
  {
    assert a[0] in multiset(b) && b[0] in multiset(a);
    var i :| 0 <= i < |b| && b[i] == a[0];
    var j :| 0 <= j < |a| && a[j] == b[0];
    SortedFirstIsLeast(b, i);
    SortedFirstIsLeast(a, j);
    StrLeAntisymmetric(a[0], b[0]);
  }

  /** Removing the same first element from two arrangements of the same values leaves the same values. */
  lemma TailContents<T>(a: seq<T>, b: seq<T>)
    requires multiset(a) == multiset(b) && a != [] && b != [] && a[0] == b[0]
    ensures multiset(a[1..]) == multiset(b[1..])
  {
    assert a == [a[0]] + a[1..] && b == [b[0]] + b[1..];
    assert multiset(a) == multiset{a[0]} + multiset(a[1..]);
    assert multiset(b) == multiset{b[0]} + multiset(b[1..]);
    assert multiset(a[1..]) == multiset(a) - multiset{a[0]};
  }

  lemma SortedTail(s: seq<string>)
    requires Sorted(s) && s != []
    ensures Sorted(s[1..])
  {
    forall i | 0 <= i < |s[1..]| - 1 ensures StrLe(s[1..][i], s[1..][i + 1]) {
      assert s[1..][i] == s[i + 1] && s[1..][i + 1] == s[i + 2];
    }
  }

  /** `sort` gives the same list for any two arrangements of the same strings. */
  lemma SortDependsOnlyOnContents(a: seq<string>, b: seq<string>)
    requires multiset(a) == multiset(b)
    ensures Sort(a) == Sort(b)
  {
    SortedUnique(Sort(a), Sort(b));
  }
}
