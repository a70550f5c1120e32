/**
 The fretboard lattice (`get_guitar_neck`) and the chord-tone mask laid over
 it (`get_bool_neck`). A neck is a table of rows (frets, 0 = open) by
 columns (strings, 0 = lowest-pitched).
 */
module Neck {
  import opened Pitch

  /** A rectangular table with `rows` rows of `cols` cells each. */
  ghost predicate IsGrid<T>(g: seq<seq<T>>, rows: nat, cols: nat) {
    |g| == rows && forall f :: 0 <= f < |g| ==> |g[f]| == cols
  }

  /** `get_guitar_neck`: `Octave + handRange` rows, one column per string;
      cell (f, s) is the pitch class string `s` sounds when stopped at fret f.
      The open row is the tuning itself. */
  function GuitarNeck(tuning: seq<PitchClass>, handRange: nat): (neck: seq<seq<PitchClass>>)
    requires |tuning| >= 1
    ensures IsGrid(neck, Octave + handRange, |tuning|)
    ensures neck[0] == tuning
    ensures forall f, s :: 0 <= f < |neck| && 0 <= s < |tuning| ==> neck[f][s] == Add(tuning[s], f)
  {
    seq(Octave + handRange, f requires 0 <= f => seq(|tuning|, s requires 0 <= s < |tuning| => Add(tuning[s], f)))
  }

  /** The neck repeats itself every octave: the `handRange` rows past fret 11
      duplicate frets 0 .. handRange - 1. */
  lemma NeckPeriodic(tuning: seq<PitchClass>, handRange: nat, f: nat)
    requires |tuning| >= 1 && f + Octave < Octave + handRange
    ensures GuitarNeck(tuning, handRange)[f + Octave] == GuitarNeck(tuning, handRange)[f]
  {
    var neck := GuitarNeck(tuning, handRange);
    forall s | 0 <= s < |tuning|
      ensures neck[f + Octave][s] == neck[f][s]
    {
      AddAdd(tuning[s], f, Octave);
    }
  }

  /** Within frets 0..11 every string sounds every pitch class exactly once:
      `p` sits at fret `Interval(tuning[s], p)` and at no other fret there. */
  lemma NeckColumnCoversOctave(tuning: seq<PitchClass>, handRange: nat, s: nat, p: PitchClass, f: nat)
    requires |tuning| >= 1 && s < |tuning| && f < Octave
    ensures GuitarNeck(tuning, handRange)[Interval(tuning[s], p)][s] == p
    ensures GuitarNeck(tuning, handRange)[f][s] == p <==> f == Interval(tuning[s], p)
  {
    var neck := GuitarNeck(tuning, handRange);
    if neck[f][s] == p {
      IntervalOfAdd(tuning[s], f);
    }
  }

  /** The mask of cells that hold `p`. */
  function CellsEqual(neck: seq<seq<PitchClass>>, p: PitchClass): (b: seq<seq<bool>>)
    ensures |b| == |neck| && forall f :: 0 <= f < |b| ==> |b[f]| == |neck[f]|
    ensures forall f, s :: 0 <= f < |b| && 0 <= s < |b[f]| ==> (b[f][s] <==> neck[f][s] == p)
  {
    seq(|neck|, f requires 0 <= f < |neck| =>
      seq(|neck[f]|, s requires 0 <= s < |neck[f]| => neck[f][s] == p))
  }

  /** Cell-wise disjunction of two masks of one shape. */
  function Or(a: seq<seq<bool>>, b: seq<seq<bool>>): (c: seq<seq<bool>>)
    requires |a| == |b| && forall f :: 0 <= f < |a| ==> |a[f]| == |b[f]|
    ensures |c| == |a| && forall f :: 0 <= f < |c| ==> |c[f]| == |a[f]|
    ensures forall f, s :: 0 <= f < |c| && 0 <= s < |c[f]| ==> (c[f][s] <==> a[f][s] || b[f][s])
  {
    seq(|a|, f requires 0 <= f < |a| =>
      seq(|a[f]|, s requires 0 <= s < |a[f]| => a[f][s] || b[f][s]))
  }

  /** `get_bool_neck`: starts from the cells equal to the first chord tone and
      ORs in the cells equal to each further tone. A cell is marked exactly
      when its pitch class is one of the chord's tones. The source reads
      `chord[0]`, so the chord may not be empty. */
  function BoolNeck(neck: seq<seq<PitchClass>>, chord: seq<PitchClass>): (b: seq<seq<bool>>)
    requires |chord| >= 1
    ensures |b| == |neck| && forall f :: 0 <= f < |b| ==> |b[f]| == |neck[f]|
    ensures forall f, s :: 0 <= f < |b| && 0 <= s < |b[f]| ==> (b[f][s] <==> neck[f][s] in chord)
    decreases |chord|
  {
    if |chord| == 1 then CellsEqual(neck, chord[0])
    else
      var prefix := chord[..|chord| - 1];
      assert chord == prefix + [chord[|chord| - 1]];
      Or(BoolNeck(neck, prefix), CellsEqual(neck, chord[|chord| - 1]))
  }
}
