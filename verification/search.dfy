/**
 The window search of one tuning (`get_variations`): a hand spanning
 `handRange` consecutive frets is placed at every start fret 1..12; together
 with the always-available open strings it reaches a set of frets on each
 string; every combination of chord-tone frets is tried and kept when the
 strings sound exactly the chord's set of pitch classes.
 */
module Search {
  import opened Pitch
  import opened Util
  import opened Neck

  /** One fret per string of the tuning it was found on; 0 is an open string. */
  type Placement = seq<nat>

  /** The chord's tones as a set (`{n.value for n in chord}`). */
  function ChordSet(chord: seq<PitchClass>): (r: set<PitchClass>)
    ensures forall p :: p in r <==> p in chord
  {
    set p | p in chord
  }

  /** The pitch classes the strings of `tuning` sound when stopped at `v`. */
  function Sounded(tuning: seq<PitchClass>, v: Placement): set<PitchClass>
    requires |v| <= |tuning|
  {
    set k | 0 <= k < |v| :: Add(tuning[k], v[k])
  }

  /** The first string's note joined with what the remaining strings sound. */
  lemma SoundedCons(tuning: seq<PitchClass>, v: Placement)
    requires 1 <= |v| <= |tuning|
    ensures Sounded(tuning, v) == {Add(tuning[0], v[0])} + Sounded(tuning[1..], v[1..])
  {
    var rest := Sounded(tuning[1..], v[1..]);
    forall p | p in rest ensures p in Sounded(tuning, v) {
      var k :| 0 <= k < |v[1..]| && p == Add(tuning[1..][k], v[1..][k]);
      assert p == Add(tuning[k + 1], v[k + 1]);
    }
    forall p | p in Sounded(tuning, v) ensures p == Add(tuning[0], v[0]) || p in rest {
      var k :| 0 <= k < |v| && p == Add(tuning[k], v[k]);
      if k > 0 {
        assert p == Add(tuning[1..][k - 1], v[1..][k - 1]);
      }
    }
  }

  /** Every stopped (positive) fret of `v` lies in the window of `handRange`
      frets starting at fret `i`. */
  predicate InWindow(v: Placement, i: int, handRange: nat) {
    forall k :: 0 <= k < |v| ==> v[k] == 0 || i <= v[k] < i + handRange
  }

  /** Some window start 1..12 holds all stopped frets of `v`. */
  predicate HandReachable(v: Placement, handRange: nat) {
    exists i :: 1 <= i <= Octave && InWindow(v, i, handRange)
  }

  /** The reference definition of a variation: one fret per string, reachable
      by one hand position, sounding exactly the chord's tones. */
  predicate IsVariation(tuning: seq<PitchClass>, chord: seq<PitchClass>, handRange: nat, v: Placement) {
    && |v| == |tuning|
    && HandReachable(v, handRange)
    && Sounded(tuning, v) == ChordSet(chord)
  }

  /** Row `r` of the reachable table for window start `i`, as a fret number:
      row 0 is the open row, row r > 0 is fret `r + i - 1`. */
  function FretOfRow(r: nat, i: nat): nat
    requires i >= 1
  {
    if r > 0 then r + i - 1 else 0
  }

  /** The rows a hand at window start `i` reaches: the open row followed by
      frets i .. i + handRange - 1. */
  function ReachableNeck(neck: seq<seq<PitchClass>>, i: nat, handRange: nat): (r: seq<seq<PitchClass>>)
    requires 1 <= i && i + handRange <= |neck|
    ensures |r| == handRange + 1 && r[0] == neck[0]
    ensures forall k :: 1 <= k <= handRange ==> r[k] == neck[i + k - 1]
  {
    [neck[0]] + neck[i..i + handRange]
  }

  /** The frets of string `s` whose row among the first `n` rows of `mask`
      is marked, in row order (the column of `nonzero()` for that string). */
  function ValidFrets(mask: seq<seq<bool>>, s: nat, i: nat, n: nat): (fs: seq<nat>)
    requires i >= 1 && n <= |mask|
    requires forall r :: 0 <= r < |mask| ==> s < |mask[r]|
    ensures forall x :: x in fs <==> exists r :: 0 <= r < n && mask[r][s] && x == FretOfRow(r, i)
  {
    if n == 0 then []
    else ValidFrets(mask, s, i, n - 1) + (if mask[n - 1][s] then [FretOfRow(n - 1, i)] else [])
  }

  /** The marks of the reachable table for window start `i`. */
  function WindowMask(tuning: seq<PitchClass>, chord: seq<PitchClass>, handRange: nat, i: nat): (mask: seq<seq<bool>>)
    requires |tuning| >= 1 && |chord| >= 1 && 1 <= i <= Octave
    ensures |mask| == handRange + 1 && forall r :: 0 <= r < |mask| ==> |mask[r]| == |tuning|
  {
    BoolNeck(ReachableNeck(GuitarNeck(tuning, handRange), i, handRange), chord)
  }

  /** A marked row of the reachable table, read as a fret, is the open string
      or a fret of the window, and the string sounds a chord tone there. */
  lemma WindowMaskFret(tuning: seq<PitchClass>, chord: seq<PitchClass>, handRange: nat, i: nat, s: nat, x: int)
    requires |tuning| >= 1 && |chord| >= 1 && 1 <= i <= Octave && s < |tuning|
    ensures (exists r :: 0 <= r < handRange + 1 && WindowMask(tuning, chord, handRange, i)[r][s] && x == FretOfRow(r, i))
      <==> (x == 0 || i <= x < i + handRange) && Add(tuning[s], x) in chord
  {
    var mask := WindowMask(tuning, chord, handRange, i);
    var reach := ReachableNeck(GuitarNeck(tuning, handRange), i, handRange);
    assert forall r :: 0 <= r < |mask| ==> (mask[r][s] <==> reach[r][s] in chord);
    if (x == 0 || i <= x < i + handRange) && Add(tuning[s], x) in chord {
      var r: nat := if x == 0 then 0 else x - i + 1;
      assert mask[r][s] && x == FretOfRow(r, i);
    }
  }

  /** `valid_pos` for window start `i`: per string, the reachable frets that
      sound a chord tone. A fret is listed exactly when it is open or inside
      the window, and the string sounds a chord tone there. */
  function WindowFrets(tuning: seq<PitchClass>, chord: seq<PitchClass>, handRange: nat, i: nat): (vp: seq<seq<nat>>)
    requires |tuning| >= 1 && |chord| >= 1 && 1 <= i <= Octave
    ensures |vp| == |tuning|
    ensures forall s, x :: 0 <= s < |tuning| ==>
      (x in vp[s] <==> (x == 0 || i <= x < i + handRange) && Add(tuning[s], x) in chord)
  {
    var mask := WindowMask(tuning, chord, handRange, i);
    var vp := seq(|tuning|, s requires 0 <= s < |tuning| => ValidFrets(mask, s, i, |mask|));
    forall s, x | 0 <= s < |tuning|
      ensures x in vp[s] <==> (x == 0 || i <= x < i + handRange) && Add(tuning[s], x) in chord
    {
      WindowMaskFret(tuning, chord, handRange, i, s, x);
    }
    vp
  }

  /** The placements that take one element from each list, first string
      outermost (`itertools.product`). */
  function Product(lists: seq<seq<nat>>): (r: seq<Placement>)
    ensures forall t :: t in r <==>
      |t| == |lists| && forall k :: 0 <= k < |t| ==> t[k] in lists[k]
    decreases |lists|
  {
    if |lists| == 0 then [[]]
    else
      var tails := Product(lists[1..]);
      ProductStep(lists, tails);
      PrependEach(lists[0], tails)
  }

  /** `tails` holds exactly the combinations of `lists` after the first. */
  ghost predicate TailsOf(lists: seq<seq<nat>>, tails: seq<Placement>)
    requires |lists| >= 1
  {
    forall t :: t in tails <==>
      |t| == |lists| - 1 && forall k :: 0 <= k < |t| ==> t[k] in lists[1..][k]
  }

  lemma ProductStepIn(lists: seq<seq<nat>>, tails: seq<Placement>, t: Placement)
    requires |lists| >= 1 && TailsOf(lists, tails)
    requires |t| == |lists| && forall k :: 0 <= k < |t| ==> t[k] in lists[k]
    ensures t in PrependEach(lists[0], tails)
  {
    var u := t[1..];
    forall k | 0 <= k < |u| ensures u[k] in lists[1..][k] {
      assert u[k] == t[k + 1];
    }
    assert u in tails;
    assert t == [t[0]] + u;
  }

  lemma ProductStepOut(lists: seq<seq<nat>>, tails: seq<Placement>, t: Placement)
    requires |lists| >= 1 && TailsOf(lists, tails)
    requires t in PrependEach(lists[0], tails)
    ensures |t| == |lists| && forall k :: 0 <= k < |t| ==> t[k] in lists[k]
  {
    var x, u :| x in lists[0] && u in tails && t == [x] + u;
    forall k | 1 <= k < |t| ensures t[k] in lists[k] {
      assert t[k] == u[k - 1] && u[k - 1] in lists[1..][k - 1];
    }
  }

  /** One step of the product: prepending each choice for the first list to
      every combination of the remaining lists. */
  lemma ProductStep(lists: seq<seq<nat>>, tails: seq<Placement>)
    requires |lists| >= 1 && TailsOf(lists, tails)
    ensures forall t :: t in PrependEach(lists[0], tails) <==>
      |t| == |lists| && forall k :: 0 <= k < |t| ==> t[k] in lists[k]
  {
    forall t ensures t in PrependEach(lists[0], tails) <==>
      |t| == |lists| && forall k :: 0 <= k < |t| ==> t[k] in lists[k]
    {
      if |t| == |lists| && forall k :: 0 <= k < |t| ==> t[k] in lists[k] {
        ProductStepIn(lists, tails, t);
      }
      if t in PrependEach(lists[0], tails) {
        ProductStepOut(lists, tails, t);
      }
    }
  }

  /** Every `x` of `xs` (outer, in order) in front of every tail. */
  function PrependEach(xs: seq<nat>, tails: seq<Placement>): (r: seq<Placement>)
    ensures forall t :: t in r <==> exists x, u :: x in xs && u in tails && t == [x] + u
    decreases |xs|
  {
    if |xs| == 0 then []
    else
      var head := seq(|tails|, j requires 0 <= j < |tails| => [xs[0]] + tails[j]);
      var rest := PrependEach(xs[1..], tails);
      forall t | t in head ensures exists x, u :: x in xs && u in tails && t == [x] + u {
        var j :| 0 <= j < |tails| && head[j] == t;
        assert xs[0] in xs && tails[j] in tails;
      }
      forall x, u | x in xs && u in tails ensures [x] + u in head + rest {
        if x == xs[0] {
          var j :| 0 <= j < |tails| && tails[j] == u;
          assert head[j] == [x] + u;
        } else {
          assert x in xs[1..];
        }
      }
      head + rest
  }

  /** Every fret of `c` names a row of `neck` that has a cell for that string. */
  predicate FitsNeck(neck: seq<seq<PitchClass>>, c: Placement) {
    forall k :: 0 <= k < |c| ==> c[k] < |neck| && k < |neck[c[k]]|
  }

  /** The cells read off the neck by the first `n` strings of `places`. */
  function CellsRead(neck: seq<seq<PitchClass>>, places: Placement, n: nat): set<PitchClass>
    requires FitsNeck(neck, places) && n <= |places|
  {
    set k | 0 <= k < n :: neck[places[k]][k]
  }

  /** `n` strings read at most `n` distinct pitch classes. */
  lemma {:induction false} CellsReadCard(neck: seq<seq<PitchClass>>, places: Placement, n: nat)
    requires FitsNeck(neck, places) && n <= |places|
    ensures |CellsRead(neck, places, n)| <= n
  {
    if n > 0 {
      CellsReadCard(neck, places, n - 1);
      assert CellsRead(neck, places, n) == CellsRead(neck, places, n - 1) + {neck[places[n - 1]][n - 1]};
    }
  }

  /** `validate_chord`, which delegates to `_validate_all_notes_present`: the
      set of cells read off the neck at `places` equals the chord's tones. So
      a chord with more distinct tones than there are strings never
      validates. */
  predicate ValidateChord(neck: seq<seq<PitchClass>>, chord: seq<PitchClass>, places: Placement): (ok: bool)
    requires FitsNeck(neck, places)
    ensures ok ==> |ChordSet(chord)| <= |places|
  {
    CellsReadCard(neck, places, |places|);
    CellsRead(neck, places, |places|) == ChordSet(chord)
  }

  /** A chord built from a template has as many distinct tones as the
      template has offsets: three for a triad, four for a seventh chord. */
  lemma ChordToneCount(root: PitchClass, t: ChordType)
    ensures |ChordSet(ChordNotes(root, t))| == |Offsets(t)|
  {
    var c := ChordNotes(root, t);
    if |Offsets(t)| == 3 {
      assert ChordSet(c) == {c[0], c[1], c[2]};
    } else {
      assert ChordSet(c) == {c[0], c[1], c[2], c[3]};
    }
  }

  /** So a chord needs at least one string per template offset: a seventh
      chord never validates on three strings. */
  lemma TooFewStringsNeverValidate(neck: seq<seq<PitchClass>>, root: PitchClass, t: ChordType, places: Placement)
    requires FitsNeck(neck, places) && |places| < |Offsets(t)|
    ensures !ValidateChord(neck, ChordNotes(root, t), places)
  {
    ChordToneCount(root, t);
  }

  /** Validation cell by cell: every cell read is a chord tone, and every
      chord tone is read from some string. */
  lemma ValidateChordCells(neck: seq<seq<PitchClass>>, chord: seq<PitchClass>, places: Placement)
    requires FitsNeck(neck, places)
    ensures ValidateChord(neck, chord, places) <==>
      && (forall k :: 0 <= k < |places| ==> neck[places[k]][k] in chord)
      && (forall p :: p in chord ==> exists k :: 0 <= k < |places| && neck[places[k]][k] == p)
  {
    var read := set k | 0 <= k < |places| :: neck[places[k]][k];
    assert forall k :: 0 <= k < |places| ==> neck[places[k]][k] in read;
  }

  /** On the neck of `tuning`, validation is exact coverage on the tuning. */
  lemma ValidateIsExactCover(tuning: seq<PitchClass>, handRange: nat, chord: seq<PitchClass>, places: Placement)
    requires |tuning| >= 1 && |places| == |tuning|
    requires forall k :: 0 <= k < |places| ==> places[k] < Octave + handRange
    ensures FitsNeck(GuitarNeck(tuning, handRange), places)
    ensures ValidateChord(GuitarNeck(tuning, handRange), chord, places) <==> Sounded(tuning, places) == ChordSet(chord)
  {
    var neck := GuitarNeck(tuning, handRange);
    assert (set k | 0 <= k < |places| :: neck[places[k]][k]) == Sounded(tuning, places);
  }

  /** The combinations of `cs` that pass `validate_chord`, in order. */
  function KeepValid(neck: seq<seq<PitchClass>>, chord: seq<PitchClass>, cs: seq<Placement>): (r: seq<Placement>)
    requires forall c :: c in cs ==> FitsNeck(neck, c)
    ensures forall x :: x in r <==> x in cs && ValidateChord(neck, chord, x)
  {
    if |cs| == 0 then []
    else (if ValidateChord(neck, chord, cs[0]) then [cs[0]] else []) + KeepValid(neck, chord, cs[1..])
  }

  /** The validated combinations of one window start `i`. They are exactly the
      placements of the right length whose stopped frets lie in window `i`
      and that sound exactly the chord. */
  function WindowVariations(tuning: seq<PitchClass>, chord: seq<PitchClass>, handRange: nat, i: nat): (r: seq<Placement>)
    requires |tuning| >= 1 && |chord| >= 1 && 1 <= i <= Octave
    ensures forall x :: x in r <==>
      |x| == |tuning| && InWindow(x, i, handRange) && Sounded(tuning, x) == ChordSet(chord)
  {
    var neck := GuitarNeck(tuning, handRange);
    var vp := WindowFrets(tuning, chord, handRange, i);
    var combos := Product(vp);
    forall c | c in combos ensures FitsNeck(neck, c) {
      ValidateIsExactCover(tuning, handRange, chord, c);
    }
    var r := KeepValid(neck, chord, combos);
    forall x ensures x in r <==>
      |x| == |tuning| && InWindow(x, i, handRange) && Sounded(tuning, x) == ChordSet(chord)
    {
      if |x| == |tuning| && InWindow(x, i, handRange) && Sounded(tuning, x) == ChordSet(chord) {
        forall k | 0 <= k < |x| ensures x[k] in vp[k] {
          assert Add(tuning[k], x[k]) in Sounded(tuning, x);
        }
        ValidateIsExactCover(tuning, handRange, chord, x);
      }
      if x in r {
        ValidateIsExactCover(tuning, handRange, chord, x);
      }
    }
    r
  }

  /** `out.add(c)` for each `c` of `cs` in turn: `out` stays free of repeats
      and gains exactly the new placements. */
  function AddAll(acc: seq<Placement>, cs: seq<Placement>): (r: seq<Placement>)
    requires NoDup(acc)
    ensures NoDup(r)
    ensures forall x :: x in r <==> x in acc || x in cs
    decreases |cs|
  {
    if |cs| == 0 then acc
    else AddAll(if cs[0] in acc then acc else acc + [cs[0]], cs[1..])
  }

  /** The result set after the window starts 1..n have been processed. */
  function WindowsThrough(tuning: seq<PitchClass>, chord: seq<PitchClass>, handRange: nat, n: nat): (out: seq<Placement>)
    requires |tuning| >= 1 && |chord| >= 1 && n <= Octave
    ensures NoDup(out)
    ensures forall x :: x in out <==> exists i :: 1 <= i <= n && x in WindowVariations(tuning, chord, handRange, i)
  {
    if n == 0 then []
    else AddAll(WindowsThrough(tuning, chord, handRange, n - 1), WindowVariations(tuning, chord, handRange, n))
  }

  /** `get_variations`: the distinct placements found over all window starts
      1 .. (rows - handRange) = 1..12. They are exactly the variations of the
      reference definition: complete, sound, and without repeats. The source
      reads `chord[0]` and stacks one column per string, so neither the chord
      nor the tuning may be empty. */
  function GetVariations(tuning: seq<PitchClass>, chord: seq<PitchClass>, handRange: nat): (out: seq<Placement>)
    requires |tuning| >= 1 && |chord| >= 1
    ensures NoDup(out)
    ensures forall x :: x in out <==> IsVariation(tuning, chord, handRange, x)
  {
    var windows := |GuitarNeck(tuning, handRange)| - handRange;
    var out := WindowsThrough(tuning, chord, handRange, windows);
    forall x ensures x in out <==> IsVariation(tuning, chord, handRange, x) {
      if IsVariation(tuning, chord, handRange, x) {
        var i :| 1 <= i <= Octave && InWindow(x, i, handRange);
        assert x in WindowVariations(tuning, chord, handRange, i);
      }
    }
    out
  }

  /** Shape of every result: one fret per string, every fret on the neck
      (0 .. 11 + handRange), and every string sounding a chord tone (the
      `get_bool_neck` mask). */
  lemma VariationShape(tuning: seq<PitchClass>, chord: seq<PitchClass>, handRange: nat, v: Placement)
    requires |tuning| >= 1 && |chord| >= 1
    requires v in GetVariations(tuning, chord, handRange)
    ensures |v| == |tuning|
    ensures forall k :: 0 <= k < |v| ==> v[k] < Octave + handRange
    ensures forall k :: 0 <= k < |v| ==> Add(tuning[k], v[k]) in chord
  {
    var i :| 1 <= i <= Octave && InWindow(v, i, handRange);
    forall k | 0 <= k < |v| ensures Add(tuning[k], v[k]) in chord {
      assert Add(tuning[k], v[k]) in Sounded(tuning, v);
    }
  }

  /** With no fretted rows (`handRange` 0) only the all-open placement can be
      found, and it is found exactly when the open strings sound the chord. */
  lemma NoHandRangeOnlyOpen(tuning: seq<PitchClass>, chord: seq<PitchClass>, v: Placement)
    requires |tuning| >= 1 && |chord| >= 1
    ensures v in GetVariations(tuning, chord, 0) <==>
      |v| == |tuning| && (forall k :: 0 <= k < |v| ==> v[k] == 0) && Sounded(tuning, v) == ChordSet(chord)
  {
    if |v| == |tuning| && (forall k :: 0 <= k < |v| ==> v[k] == 0) && Sounded(tuning, v) == ChordSet(chord) {
      assert InWindow(v, 1, 0);
    }
  }
}
