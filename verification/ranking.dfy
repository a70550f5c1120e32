/**
 Merging and ranking (`get_variations_456`): the search runs on the full
 tuning and on the tuning without its lowest one or two strings, only
 placements whose lowest string sounds the chord's root are kept, and the
 merged list is sorted by (lowest stopped fret, sum of frets).
 */
module Ranking {
  import opened Pitch
  import opened Util
  import opened Search

  /** The smallest stopped (positive) fret of `v`, or `None` when every
      string is open, where the source's `min` of an empty list fails. */
  function MinPositive(v: Placement): (m: Option<nat>)
    ensures m.None? <==> forall k :: 0 <= k < |v| ==> v[k] == 0
    ensures m.Some? ==> m.value > 0 && m.value in v
    ensures m.Some? ==> forall k :: 0 <= k < |v| && v[k] > 0 ==> m.value <= v[k]
    decreases |v|
  {
    if |v| == 0 then None
    else
      var rest := MinPositive(v[1..]);
      assert forall k :: 1 <= k < |v| ==> v[k] == v[1..][k - 1];
      if v[0] == 0 then rest
      else if rest.None? || v[0] <= rest.value then Some(v[0])
      else rest
  }

  /** The sum of all frets (`sum(v)`): no fret exceeds it. */
  function Sum(v: Placement): (total: nat)
    ensures forall k :: 0 <= k < |v| ==> v[k] <= total
    decreases |v|
  {
    if |v| == 0 then 0 else v[0] + Sum(v[1..])
  }

  /** A placement sums to zero exactly when every string is open. */
  lemma {:induction false} SumZero(v: Placement)
    ensures Sum(v) == 0 <==> forall k :: 0 <= k < |v| ==> v[k] == 0
    decreases |v|
  {
    if |v| > 0 {
      SumZero(v[1..]);
      assert forall k :: 1 <= k < |v| ==> v[k] == v[1..][k - 1];
    }
  }

  /** The ranking key. An all-open placement has no stopped fret; this key
      ranks it as if its lowest stopped fret were 0. */
  function Key(v: Placement): (key: (nat, nat))
    ensures key.0 == 0 <==> forall k :: 0 <= k < |v| ==> v[k] == 0
    ensures key.0 > 0 ==> key.0 in v && forall k :: 0 <= k < |v| && v[k] > 0 ==> key.0 <= v[k]
    ensures key.1 == 0 <==> forall k :: 0 <= k < |v| ==> v[k] == 0
    ensures forall k :: 0 <= k < |v| ==> v[k] <= key.1
  {
    SumZero(v);
    (MinPositive(v).GetOr(0), Sum(v))
  }

  /** Python's tuple order on keys: lexicographic, first component first. */
  predicate KeyLe(a: (nat, nat), b: (nat, nat)) {
    a.0 < b.0 || (a.0 == b.0 && a.1 <= b.1)
  }

  /** `s` is ordered by `key` under `KeyLe`. */
  predicate SortedBy<T>(s: seq<T>, key: T -> (nat, nat)) {
    forall i, j :: 0 <= i < j < |s| ==> KeyLe(key(s[i]), key(s[j]))
  }

  predicate SortedByKey(s: seq<Placement>) {
    SortedBy(s, Key)
  }

  /** Putting in front of a sorted list an element that ranks no higher
      than any of its elements keeps it sorted. */
  lemma ConsSorted<T>(h: T, rest: seq<T>, key: T -> (nat, nat))
    requires SortedBy(rest, key)
    requires forall y :: y in rest ==> KeyLe(key(h), key(y))
    ensures SortedBy([h] + rest, key)
  {
    var r := [h] + rest;
    forall i, j | 0 <= i < j < |r| ensures KeyLe(key(r[i]), key(r[j])) {
      assert r[j] == rest[j - 1];
      if i > 0 {
        assert r[i] == rest[i - 1];
      }
    }
  }

  /** The head of a sorted list ranks no higher than anything behind it. */
  lemma HeadRanksFirst<T>(s: seq<T>, key: T -> (nat, nat))
    requires SortedBy(s, key)
    ensures |s| >= 1 ==> forall y :: y in multiset(s) ==> KeyLe(key(s[0]), key(y))
  {
    forall y | y in multiset(s) ensures KeyLe(key(s[0]), key(y)) {
      var k :| 0 <= k < |s| && s[k] == y;
    }
  }

  /** Inserts `x` in front of the first element that does not rank below it. */
  function InsertBy<T>(x: T, s: seq<T>, key: T -> (nat, nat)): (r: seq<T>)
    requires SortedBy(s, key)
    ensures SortedBy(r, key)
    ensures multiset(r) == multiset(s) + multiset{x}
    decreases |s|
  {
    if |s| == 0 || KeyLe(key(x), key(s[0])) then
      HeadRanksFirst(s, key);
      ConsSorted(x, s, key);
      [x] + s
    else
      var rest := InsertBy(x, s[1..], key);
      assert s == [s[0]] + s[1..];
      HeadRanksFirst(s, key);
      forall y | y in rest ensures KeyLe(key(s[0]), key(y)) {
        assert y in multiset(rest);
      }
      ConsSorted(s[0], rest, key);
      [s[0]] + rest
  }

  /** `list.sort(key=...)`: an insertion sort by `key`. The result is ordered
      by the key and is a permutation of the input. */
  function SortBy<T>(s: seq<T>, key: T -> (nat, nat)): (r: seq<T>)
    ensures SortedBy(r, key)
    ensures multiset(r) == multiset(s)
    decreases |s|
  {
    if |s| == 0 then []
    else
      assert s == [s[0]] + s[1..];
      InsertBy(s[0], SortBy(s[1..], key), key)
  }

  /** Among elements of equal key, those with the larger `tie` come first. */
  predicate TiesBy<T>(s: seq<T>, key: T -> (nat, nat), tie: T -> nat) {
    forall i, j :: 0 <= i < j < |s| && key(s[i]) == key(s[j]) ==> tie(s[i]) >= tie(s[j])
  }

  /** `tie` never increases along `s`. */
  predicate DescendingBy<T>(s: seq<T>, tie: T -> nat) {
    forall i, j :: 0 <= i < j < |s| ==> tie(s[i]) >= tie(s[j])
  }

  /** Inserting an element whose `tie` is at least that of every element
      keeps equal-key elements ordered by `tie`: it goes in front of the
      elements of its own key. */
  lemma {:induction false} InsertByKeepsTies<T>(x: T, s: seq<T>, key: T -> (nat, nat), tie: T -> nat)
    requires SortedBy(s, key) && TiesBy(s, key, tie)
    requires forall y :: y in s ==> tie(y) <= tie(x)
    ensures TiesBy(InsertBy(x, s, key), key, tie)
    decreases |s|
  {
    var r := InsertBy(x, s, key);
    if |s| == 0 || KeyLe(key(x), key(s[0])) {
      forall i, j | 0 <= i < j < |r| && key(r[i]) == key(r[j]) ensures tie(r[i]) >= tie(r[j]) {
        assert r[j] == s[j - 1];
        if i > 0 {
          assert r[i] == s[i - 1];
        }
      }
    } else {
      var tail := s[1..];
      InsertByKeepsTies(x, tail, key, tie);
      var rest := InsertBy(x, tail, key);
      assert r == [s[0]] + rest;
      forall i, j | 0 <= i < j < |r| && key(r[i]) == key(r[j]) ensures tie(r[i]) >= tie(r[j]) {
        assert r[j] == rest[j - 1];
        if i > 0 {
          assert r[i] == rest[i - 1];
        } else if r[j] != x {
          HeadTieOverTail(s, key, tie, r[j], rest, x);
        }
      }
    }
  }

  /** An element of `rest` that is not `x` comes from the tail of `s`, so
      the head of `s` is ordered before it. */
  lemma HeadTieOverTail<T>(s: seq<T>, key: T -> (nat, nat), tie: T -> nat, y: T, rest: seq<T>, x: T)
    requires |s| >= 1 && TiesBy(s, key, tie)
    requires multiset(rest) == multiset(s[1..]) + multiset{x}
    requires y in rest && y != x && key(s[0]) == key(y)
    ensures tie(s[0]) >= tie(y)
  {
    assert y in multiset(rest);
    assert y in multiset(s[1..]);
    var k :| 0 <= k < |s[1..]| && s[1..][k] == y;
    assert s[k + 1] == y;
  }

  /** The sort is stable in this sense: when the input is ordered by `tie`,
      elements of equal key keep that order. */
  lemma {:induction false} SortByKeepsTies<T>(s: seq<T>, key: T -> (nat, nat), tie: T -> nat)
    requires DescendingBy(s, tie)
    ensures TiesBy(SortBy(s, key), key, tie)
    decreases |s|
  {
    if |s| > 0 {
      var tail := s[1..];
      SortByKeepsTies(tail, key, tie);
      var sorted := SortBy(tail, key);
      forall y | y in sorted ensures tie(y) <= tie(s[0]) {
        assert y in multiset(tail);
        var k :| 0 <= k < |tail| && tail[k] == y;
        assert s[k + 1] == y;
      }
      InsertByKeepsTies(s[0], sorted, key, tie);
    }
  }

  /** The placements sorted by the ranking key. */
  function SortByKey(s: seq<Placement>): (r: seq<Placement>)
    ensures SortedByKey(r)
    ensures multiset(r) == multiset(s)
  {
    SortBy(s, Key)
  }

  /** The placements of `vs` whose first string, tuned to `bass`, sounds
      `root`, in their original order. */
  function KeepRooted(vs: seq<Placement>, bass: PitchClass, root: PitchClass): (r: seq<Placement>)
    requires forall v :: v in vs ==> |v| >= 1
    ensures forall x :: x in r <==> x in vs && Add(bass, x[0]) == root
    ensures NoDup(vs) ==> NoDup(r)
    decreases |vs|
  {
    if |vs| == 0 then []
    else
      var rest := KeepRooted(vs[1..], bass, root);
      if Add(bass, vs[0][0]) == root then
        assert NoDup(vs) ==> vs[0] !in vs[1..];
        assert NoDup(vs) ==> NoDup(vs[1..]);
        [vs[0]] + rest
      else
        assert NoDup(vs) ==> NoDup(vs[1..]);
        rest
  }

  /** `x` is a variation of the tuning without its `drop` lowest strings
      whose lowest remaining string sounds the chord's first tone (its root). */
  predicate RootedOn(tuning: seq<PitchClass>, chord: seq<PitchClass>, handRange: nat, drop: nat, x: Placement)
    requires drop < |tuning| && |chord| >= 1
  {
    && |x| + drop == |tuning|
    && IsVariation(tuning[drop..], chord, handRange, x)
    && Add(tuning[drop], x[0]) == chord[0]
  }

  /** The reference definition of a ranked result: a rooted variation on all
      strings, on all but the lowest, or on all but the lowest two. */
  predicate RootedVariation(tuning: seq<PitchClass>, chord: seq<PitchClass>, handRange: nat, x: Placement)
    requires |tuning| >= 3 && |chord| >= 1
  {
    RootedOn(tuning, chord, handRange, 0, x)
    || RootedOn(tuning, chord, handRange, 1, x)
    || RootedOn(tuning, chord, handRange, 2, x)
  }

  /** The search on the tuning without its `drop` lowest strings, filtered
      to the placements whose lowest string sounds the root. */
  function RootedPart(tuning: seq<PitchClass>, chord: seq<PitchClass>, handRange: nat, drop: nat): (r: seq<Placement>)
    requires drop < |tuning| && |chord| >= 1
    ensures NoDup(r)
    ensures forall x :: x in r <==> RootedOn(tuning, chord, handRange, drop, x)
    ensures forall x :: x in r ==> |x| + drop == |tuning|
  {
    KeepRooted(GetVariations(tuning[drop..], chord, handRange), tuning[drop], chord[0])
  }

  /** The three bass-filtered search results, concatenated. They hold every
      rooted variation exactly once: the three lists are repeat-free and
      cannot share a placement, since their lengths differ. */
  function RootedCandidates(tuning: seq<PitchClass>, chord: seq<PitchClass>, handRange: nat): (r: seq<Placement>)
    requires |tuning| >= 3 && |chord| >= 1
    ensures NoDup(r)
    ensures forall x :: x in r <==> RootedVariation(tuning, chord, handRange, x)
  {
    var v6 := RootedPart(tuning, chord, handRange, 0);
    var v5 := RootedPart(tuning, chord, handRange, 1);
    var v4 := RootedPart(tuning, chord, handRange, 2);
    NoDupConcat(v6, v5);
    NoDupConcat(v6 + v5, v4);
    v6 + v5 + v4
  }

  /** `get_variations_456` with an explicit fallback for all-open placements:
      the rooted candidates, ordered by key. The result is sorted and a
      permutation of the three filtered lists. */
  function GetVariations456(tuning: seq<PitchClass>, chord: seq<PitchClass>, handRange: nat): (r: seq<Placement>)
    requires |tuning| >= 3 && |chord| >= 1
    ensures SortedByKey(r)
    ensures multiset(r) == multiset(RootedCandidates(tuning, chord, handRange))
  {
    SortByKey(RootedCandidates(tuning, chord, handRange))
  }

  /** The ranked list holds every rooted variation exactly once and nothing
      else. */
  lemma RankedExact(tuning: seq<PitchClass>, chord: seq<PitchClass>, handRange: nat, x: Placement)
    requires |tuning| >= 3 && |chord| >= 1
    ensures NoDup(GetVariations456(tuning, chord, handRange))
    ensures x in GetVariations456(tuning, chord, handRange) <==> RootedVariation(tuning, chord, handRange, x)
  {
    var r := GetVariations456(tuning, chord, handRange);
    var cands := RootedCandidates(tuning, chord, handRange);
    NoDupCounts(cands);
    NoDupCounts(r);
    assert x in r <==> x in multiset(r);
    assert x in cands <==> x in multiset(cands);
  }

  /** A witness for membership: a placement of the right length whose stopped
      frets fit the window at some start fret 1..12, sounding exactly the
      chord with the root on its lowest string, is ranked. */
  lemma RankedWitness(tuning: seq<PitchClass>, chord: seq<PitchClass>, handRange: nat, drop: nat, i: nat, v: Placement)
    requires |tuning| >= 3 && |chord| >= 1 && drop <= 2
    requires |v| + drop == |tuning| && 1 <= i <= Octave && InWindow(v, i, handRange)
    requires Sounded(tuning[drop..], v) == ChordSet(chord) && Add(tuning[drop], v[0]) == chord[0]
    ensures v in GetVariations456(tuning, chord, handRange)
  {
    assert RootedOn(tuning, chord, handRange, drop, v);
    RankedExact(tuning, chord, handRange, v);
  }

  /** Every ranked placement covers the highest |x| strings of the tuning,
      which are 4, 5 or all 6 strings of a six-string tuning; its lowest string
      sounds the root and its strings sound exactly the chord. */
  lemma RankedBassAndCover(tuning: seq<PitchClass>, chord: seq<PitchClass>, handRange: nat, x: Placement)
    requires |tuning| >= 3 && |chord| >= 1
    requires x in GetVariations456(tuning, chord, handRange)
    ensures |tuning| - 2 <= |x| <= |tuning|
    ensures Add(tuning[|tuning| - |x|], x[0]) == chord[0]
    ensures Sounded(tuning[|tuning| - |x|..], x) == ChordSet(chord)
  {
    RankedExact(tuning, chord, handRange, x);
  }

  /** The number of strings a placement covers. */
  function Width(v: Placement): nat {
    |v|
  }

  /** Three lists of placements covering n, n - 1 and n - 2 strings,
      concatenated, come longest first. */
  lemma ConcatLongestFirst(a: seq<Placement>, b: seq<Placement>, c: seq<Placement>, n: nat)
    requires forall x :: x in a ==> |x| == n
    requires forall x :: x in b ==> |x| + 1 == n
    requires forall x :: x in c ==> |x| + 2 == n
    ensures DescendingBy(a + b + c, Width)
  {
    var s := a + b + c;
    forall k | 0 <= k < |s|
      ensures |s[k]| == n - (if k < |a| then 0 else if k < |a| + |b| then 1 else 2)
    {
      if k < |a| {
        assert s[k] == a[k];
      } else if k < |a| + |b| {
        assert s[k] == b[k - |a|];
      } else {
        assert s[k] == c[k - |a| - |b|];
      }
    }
  }

  /** The candidates come longest first: the six-string results, then the
      five-string, then the four-string ones. */
  lemma CandidatesLongestFirst(tuning: seq<PitchClass>, chord: seq<PitchClass>, handRange: nat)
    requires |tuning| >= 3 && |chord| >= 1
    ensures DescendingBy(RootedCandidates(tuning, chord, handRange), Width)
  {
    ConcatLongestFirst(RootedPart(tuning, chord, handRange, 0), RootedPart(tuning, chord, handRange, 1),
      RootedPart(tuning, chord, handRange, 2), |tuning|);
  }

  /** On equal keys the ranked list keeps the source's concatenation order:
      `list.sort` is stable and the six-string results were appended before
      the five-string ones, which came before the four-string ones. */
  lemma RankedLongerFirstOnTies(tuning: seq<PitchClass>, chord: seq<PitchClass>, handRange: nat)
    requires |tuning| >= 3 && |chord| >= 1
    ensures var r := GetVariations456(tuning, chord, handRange);
      forall i, j :: 0 <= i < j < |r| && Key(r[i]) == Key(r[j]) ==> |r[i]| >= |r[j]|
  {
    CandidatesLongestFirst(tuning, chord, handRange);
    SortByKeepsTies(RootedCandidates(tuning, chord, handRange), Key, Width);
  }

  /** In a list whose equal-key elements are ordered by `tie`, of two
      elements with equal key the one with the larger `tie` comes first. */
  lemma TiesOrderPair<T>(r: seq<T>, key: T -> (nat, nat), tie: T -> nat, x: T, y: T)
    requires TiesBy(r, key, tie) && x in r && y in r
    requires key(x) == key(y) && tie(x) > tie(y)
    ensures exists a, b :: 0 <= a < b < |r| && r[a] == x && r[b] == y
  {
    var a :| 0 <= a < |r| && r[a] == x;
    var b :| 0 <= b < |r| && r[b] == y;
    assert a < b;
  }

  /** Two ranked placements of equal key: the one covering more strings is
      listed first. */
  lemma RankedTieOrder(tuning: seq<PitchClass>, chord: seq<PitchClass>, handRange: nat, x: Placement, y: Placement)
    requires |tuning| >= 3 && |chord| >= 1
    requires x in GetVariations456(tuning, chord, handRange) && y in GetVariations456(tuning, chord, handRange)
    requires Key(x) == Key(y) && |x| > |y|
    ensures var r := GetVariations456(tuning, chord, handRange);
      exists a, b :: 0 <= a < b < |r| && r[a] == x && r[b] == y
  {
    var cands := RootedCandidates(tuning, chord, handRange);
    CandidatesLongestFirst(tuning, chord, handRange);
    SortByKeepsTies(cands, Key, Width);
    TiesOrderPair(SortBy(cands, Key), Key, Width, x, y);
  }

  /** Adjacent and non-adjacent ranked placements alike: the lowest stopped
      fret never decreases, and on a tie the fret sum never decreases. */
  lemma RankedOrder(tuning: seq<PitchClass>, chord: seq<PitchClass>, handRange: nat, i: nat, j: nat)
    requires |tuning| >= 3 && |chord| >= 1
    requires i < j < |GetVariations456(tuning, chord, handRange)|
    ensures var r := GetVariations456(tuning, chord, handRange);
      Key(r[i]).0 <= Key(r[j]).0 && (Key(r[i]).0 == Key(r[j]).0 ==> Sum(r[i]) <= Sum(r[j]))
  {
  }

  /** Python's `ValueError` from `min()` of an empty list. */
  datatype RankError = NoStoppedFret

  /** `get_variations_456` as written: computing the sort key of a kept
      placement whose strings are all open raises, so the call fails exactly
      when such a placement survives the bass filter; otherwise the keys
      agree with `Key` and the result is the ranked list. */
  function GetVariations456AsWritten(tuning: seq<PitchClass>, chord: seq<PitchClass>, handRange: nat): (res: Result<seq<Placement>, RankError>)
    requires |tuning| >= 3 && |chord| >= 1
    ensures res.Failure? <==>
      exists v :: RootedVariation(tuning, chord, handRange, v) && forall k :: 0 <= k < |v| ==> v[k] == 0
    ensures res.Success? ==> res.value == GetVariations456(tuning, chord, handRange)
  {
    var cands := RootedCandidates(tuning, chord, handRange);
    if exists v :: v in cands && MinPositive(v).None? then Failure(NoStoppedFret)
    else Success(SortByKey(cands))
  }

  /** A rooted all-open placement makes the source's call fail. */
  lemma AllOpenRootedFails(tuning: seq<PitchClass>, chord: seq<PitchClass>, handRange: nat, v: Placement)
    requires |tuning| >= 3 && |chord| >= 1
    requires RootedVariation(tuning, chord, handRange, v)
    requires forall k :: 0 <= k < |v| ==> v[k] == 0
    ensures GetVariations456AsWritten(tuning, chord, handRange).Failure?
  {
  }

  /** In a list sorted by the fallback key, an all-open placement anywhere
      means the head is all-open too: nothing ranks below key (0, 0). */
  lemma SortedHeadAllOpen(r: seq<Placement>, v: Placement)
    requires SortedByKey(r) && v in r
    requires forall k :: 0 <= k < |v| ==> v[k] == 0
    ensures forall k :: 0 <= k < |r[0]| ==> r[0][k] == 0
  {
    var j :| 0 <= j < |r| && r[j] == v;
    SumZero(v);
    assert MinPositive(v).None?;
    if j > 0 {
      assert KeyLe(Key(r[0]), Key(r[j]));
    }
    SumZero(r[0]);
  }

  /** With the fallback key, a rooted all-open placement puts an all-open
      placement (key (0, 0)) at the head of the ranked list. */
  lemma AllOpenRankedFirst(tuning: seq<PitchClass>, chord: seq<PitchClass>, handRange: nat, v: Placement)
    requires |tuning| >= 3 && |chord| >= 1
    requires RootedVariation(tuning, chord, handRange, v)
    requires forall k :: 0 <= k < |v| ==> v[k] == 0
    ensures |GetVariations456(tuning, chord, handRange)| >= 1
    ensures var head := GetVariations456(tuning, chord, handRange)[0];
      && RootedVariation(tuning, chord, handRange, head)
      && (forall k :: 0 <= k < |head| ==> head[k] == 0)
      && |tuning| - 2 <= |head| <= |tuning|
      && tuning[|tuning| - |head|] == chord[0]
  {
    var r := GetVariations456(tuning, chord, handRange);
    RankedExact(tuning, chord, handRange, v);
    RankedExact(tuning, chord, handRange, r[0]);
    SortedHeadAllOpen(r, v);
  }
}
