/**
 Pitch-class arithmetic and chord templates of the chord search engine:
 the `Notes` enumeration with its `add` operation, the `ChordTypes`
 interval tables, and the spelling of a chord as an ordered list of tones.
 */
module Pitch {

  /** One of the twelve semitone classes, C = 0, C sharp = 1, ..., B = 11. */
  type PitchClass = x: int | 0 <= x < 12

  /** The number of pitch classes (`len(Notes)`), the period of the fretboard. */
  const Octave: nat := 12

  const C: PitchClass := 0
  const Cs: PitchClass := 1
  const D: PitchClass := 2
  const Ds: PitchClass := 3
  const E: PitchClass := 4
  const F: PitchClass := 5
  const Fs: PitchClass := 6
  const G: PitchClass := 7
  const Gs: PitchClass := 8
  const A: PitchClass := 9
  const As: PitchClass := 10
  const B: PitchClass := 11

  /** `Notes.add`: transpose `p` by `i` semitones (any sign). Python's `%`
      with a positive modulus never returns a negative value, so it agrees
      with Dafny's Euclidean `%` here. The result is the one pitch class
      congruent to `p + i`. */
  function Add(p: PitchClass, i: int): (r: PitchClass)
    ensures (p + i - r) % Octave == 0
  {
    (p + i) % Octave
  }

  /** The upward distance in semitones from `a` to `b`, in 0..11. */
  function Interval(a: PitchClass, b: PitchClass): (d: nat)
    ensures d < Octave && Add(a, d) == b
  {
    (b - a) % Octave
  }

  lemma ModShift(x: int, q: int)
    ensures (x + Octave * q) % Octave == x % Octave
    decreases if q > 0 then q else -q
  {
    if q > 0 {
      ModShift(x, q - 1);
      assert x + Octave * q == (x + Octave * (q - 1)) + Octave;
    } else if q < 0 {
      ModShift(x, q + 1);
      assert x + Octave * q == (x + Octave * (q + 1)) - Octave;
    }
  }

  /** Transposing by zero semitones leaves every pitch class unchanged. */
  lemma AddZero(p: PitchClass)
    ensures Add(p, 0) == p
  {
  }

  /** Two transpositions in a row are one transposition by the sum. */
  lemma {:induction false} AddAdd(p: PitchClass, a: int, b: int)
    ensures Add(Add(p, a), b) == Add(p, a + b)
  {
    var q := (p + a) / Octave;
    assert p + a == Octave * q + Add(p, a);
    ModShift(Add(p, a) + b, q);
  }

  /** Transposing down undoes transposing up. */
  lemma AddInverse(p: PitchClass, i: int)
    ensures Add(Add(p, i), -i) == p
  {
    AddAdd(p, i, -i);
  }

  /** `Interval` inverts `Add` on offsets inside one octave. */
  lemma IntervalOfAdd(p: PitchClass, o: int)
    requires 0 <= o < Octave
    ensures Interval(p, Add(p, o)) == o
  {
    var r := Add(p, o);
    if p + o < Octave {
      assert r == p + o;
    } else {
      assert r == p + o - Octave;
      ModShift(o, -1);
    }
  }

  /** The named chord qualities (`ChordTypes`). */
  datatype ChordType =
    | Major | Minor | Augmented | Diminished | Sus2 | Sus4
    | Major7 | Dom7 | Minor7 | HalfDim7 | Dim7

  /** The semitone offsets of a chord quality above its root. Every template
      starts at the root (offset 0) and climbs strictly inside one octave, so
      its tones are pairwise distinct. */
  function Offsets(t: ChordType): (r: seq<int>)
    ensures 3 <= |r| <= 4 && r[0] == 0
    ensures forall k :: 0 <= k < |r| ==> 0 <= r[k] < Octave
    ensures forall j, k :: 0 <= j < k < |r| ==> r[j] < r[k]
  {
    match t
    case Major => [0, 4, 7]
    case Minor => [0, 3, 7]
    case Augmented => [0, 4, 8]
    case Diminished => [0, 3, 6]
    case Sus2 => [0, 2, 7]
    case Sus4 => [0, 5, 7]
    case Major7 => [0, 4, 7, 11]
    case Dom7 => [0, 4, 7, 10]
    case Minor7 => [0, 3, 7, 10]
    case HalfDim7 => [0, 3, 6, 10]
    case Dim7 => [0, 3, 6, 9]
  }

  /** `get_chord_notes`: one tone per template offset, in template order.
      The first tone is the root, each tone lies exactly its offset above
      the root, and no tone repeats. */
  function ChordNotes(root: PitchClass, t: ChordType): (r: seq<PitchClass>)
    ensures |r| == |Offsets(t)| && r[0] == root
    ensures forall k :: 0 <= k < |r| ==> Interval(root, r[k]) == Offsets(t)[k]
    ensures forall j, k :: 0 <= j < k < |r| ==> r[j] != r[k]
  {
    var offs := Offsets(t);
    var r := seq(|offs|, k requires 0 <= k < |offs| => Add(root, offs[k]));
    forall k | 0 <= k < |r|
      ensures Interval(root, r[k]) == offs[k]
    {
      IntervalOfAdd(root, offs[k]);
    }
    r
  }
}
