/**
 Concrete fingerings on real tunings, derived from the general theorems of
 the search and the ranking rather than by evaluating them.
 */
module Scenarios {
  import opened Pitch
  import opened Search
  import opened Util
  import opened Ranking

  /** Standard tuning E A D G B E, lowest string first. */
  const Standard: seq<PitchClass> := [E, A, D, G, B, E]

  /** Open G tuning D G D G B D, lowest string first. */
  const OpenG: seq<PitchClass> := [D, G, D, G, B, D]

  /** G major spelled from its root: G, B, D. */
  lemma GMajorTones()
    ensures ChordNotes(G, Major) == [G, B, D]
  {
    var c := ChordNotes(G, Major);
    assert Offsets(Major) == [0, 4, 7];
    assert c[1] == Add(G, 4) && c[2] == Add(G, 7);
  }

  /** C major spelled from its root: C, E, G. */
  lemma CMajorTones()
    ensures ChordNotes(C, Major) == [C, E, G]
  {
    var c := ChordNotes(C, Major);
    assert Offsets(Major) == [0, 4, 7];
    assert c[1] == Add(C, 4) && c[2] == Add(C, 7);
  }

  /** D sus2 spelled from its root: D, E, A. */
  lemma DSus2Tones()
    ensures ChordNotes(D, Sus2) == [D, E, A]
  {
    var c := ChordNotes(D, Sus2);
    assert Offsets(Sus2) == [0, 2, 7];
    assert c[1] == Add(D, 2) && c[2] == Add(D, 7);
  }

  /** What four strings sound, written out. */
  lemma SoundedFour(t: seq<PitchClass>, v: Placement)
    requires |t| == 4 && |v| == 4
    ensures Sounded(t, v) == {Add(t[0], v[0]), Add(t[1], v[1]), Add(t[2], v[2]), Add(t[3], v[3])}
  {
    var S := {Add(t[0], v[0]), Add(t[1], v[1]), Add(t[2], v[2]), Add(t[3], v[3])};
    forall p | p in Sounded(t, v) ensures p in S {
      var k :| 0 <= k < 4 && p == Add(t[k], v[k]);
    }
    assert Add(t[0], v[0]) in Sounded(t, v);
    assert Add(t[1], v[1]) in Sounded(t, v);
    assert Add(t[2], v[2]) in Sounded(t, v);
    assert Add(t[3], v[3]) in Sounded(t, v);
  }

  /** What five strings sound, written out. */
  lemma SoundedFive(t: seq<PitchClass>, v: Placement)
    requires |t| == 5 && |v| == 5
    ensures Sounded(t, v) == {Add(t[0], v[0]), Add(t[1], v[1]), Add(t[2], v[2]), Add(t[3], v[3]), Add(t[4], v[4])}
  {
    var S := {Add(t[0], v[0]), Add(t[1], v[1]), Add(t[2], v[2]), Add(t[3], v[3]), Add(t[4], v[4])};
    forall p | p in Sounded(t, v) ensures p in S {
      var k :| 0 <= k < 5 && p == Add(t[k], v[k]);
    }
    assert Add(t[0], v[0]) in Sounded(t, v);
    assert Add(t[1], v[1]) in Sounded(t, v);
    assert Add(t[2], v[2]) in Sounded(t, v);
    assert Add(t[3], v[3]) in Sounded(t, v);
    assert Add(t[4], v[4]) in Sounded(t, v);
  }

  /** What six strings sound, written out. */
  lemma SoundedSix(t: seq<PitchClass>, v: Placement)
    requires |t| == 6 && |v| == 6
    ensures Sounded(t, v) == {Add(t[0], v[0]), Add(t[1], v[1]), Add(t[2], v[2]), Add(t[3], v[3]), Add(t[4], v[4]), Add(t[5], v[5])}
  {
    SoundedCons(t, v);
    SoundedFive(t[1..], v[1..]);
  }

  /** The only five-string placement with every string open. */
  lemma OpenFive(v: Placement)
    requires |v| == 5 && forall k :: 0 <= k < |v| ==> v[k] == 0
    ensures v == [0, 0, 0, 0, 0]
  {
  }

  /** The open G major shape 3-2-0-0-0-3 (G D G B D G) is found by the
      six-string search and, having G in the bass, is ranked. */
  lemma OpenGMajorShapeFound()
    ensures [3, 2, 0, 0, 0, 3] in GetVariations(Standard, ChordNotes(G, Major), 4)
    ensures [3, 2, 0, 0, 0, 3] in GetVariations456(Standard, ChordNotes(G, Major), 4)
  {
    GMajorTones();
    var v: Placement := [3, 2, 0, 0, 0, 3];
    SoundedSix(Standard, v);
    assert Sounded(Standard, v) == {G, B, D};
    assert InWindow(v, 1, 4);
    assert Standard[0..] == Standard;
    RankedWitness(Standard, [G, B, D], 4, 0, 1, v);
  }

  /** The open C major shape x-3-2-0-1-0 comes out as the five-string
      placement 3-2-0-1-0 with C in the bass. */
  lemma OpenCMajorOnFiveStrings()
    ensures [3, 2, 0, 1, 0] in GetVariations456(Standard, ChordNotes(C, Major), 4)
  {
    CMajorTones();
    var v: Placement := [3, 2, 0, 1, 0];
    SoundedFive(Standard[1..], v);
    assert Sounded(Standard[1..], v) == {C, E, G};
    assert InWindow(v, 1, 4);
    RankedWitness(Standard, [C, E, G], 4, 1, 1, v);
  }

  /** The six-string 0-3-2-0-1-0 (E C E G C E) sounds C major and is found by
      the search. */
  lemma InvertedCMajorFound()
    ensures IsVariation(Standard, ChordNotes(C, Major), 4, [0, 3, 2, 0, 1, 0])
    ensures [0, 3, 2, 0, 1, 0] in GetVariations(Standard, ChordNotes(C, Major), 4)
  {
    CMajorTones();
    var v: Placement := [0, 3, 2, 0, 1, 0];
    SoundedSix(Standard, v);
    assert Sounded(Standard, v) == {C, E, G};
    assert InWindow(v, 1, 4);
  }

  /** It has E in the bass, so the ranking drops it. */
  lemma InvertedCMajorDropped()
    ensures [0, 3, 2, 0, 1, 0] !in GetVariations456(Standard, ChordNotes(C, Major), 4)
  {
    CMajorTones();
    RankedExact(Standard, [C, E, G], 4, [0, 3, 2, 0, 1, 0]);
    assert Standard[0..] == Standard;
  }

  /** With no fretted rows, the open strings of standard tuning sound E and A,
      which G major lacks, so nothing is found. */
  lemma NoGMajorFromOpenStandard()
    ensures GetVariations(Standard, ChordNotes(G, Major), 0) == []
  {
    GMajorTones();
    var out := GetVariations(Standard, [G, B, D], 0);
    if out != [] {
      var v := out[0];
      assert v in out;
      NoHandRangeOnlyOpen(Standard, [G, B, D], v);
      SoundedSix(Standard, v);
      assert false;
    }
  }

  /** In open G tuning the five highest strings, all open, sound G D G B D:
      G major with G in the bass. */
  lemma OpenGTuningOpenFiveRooted()
    ensures RootedOn(OpenG, ChordNotes(G, Major), 4, 1, [0, 0, 0, 0, 0])
  {
    GMajorTones();
    var v: Placement := [0, 0, 0, 0, 0];
    SoundedFive(OpenG[1..], v);
    assert Sounded(OpenG[1..], v) == {G, B, D};
    assert InWindow(v, 1, 4);
  }

  /** So the source's ranking key is evaluated on an all-open placement and
      the call fails. */
  lemma OpenGTuningRankingFails()
    ensures GetVariations456AsWritten(OpenG, ChordNotes(G, Major), 4).Failure?
  {
    OpenGTuningOpenFiveRooted();
    AllOpenRootedFails(OpenG, ChordNotes(G, Major), 4, [0, 0, 0, 0, 0]);
  }

  /** With the fallback key the same query succeeds, and the all-open
      five-string placement comes first: the all-open six- and four-string
      placements have D in the bass. */
  lemma OpenGTuningAllOpenRankedFirst()
    ensures |GetVariations456(OpenG, ChordNotes(G, Major), 4)| >= 1
    ensures GetVariations456(OpenG, ChordNotes(G, Major), 4)[0] == [0, 0, 0, 0, 0]
  {
    GMajorTones();
    var chord := [G, B, D];
    OpenGTuningOpenFiveRooted();
    AllOpenRankedFirst(OpenG, chord, 4, [0, 0, 0, 0, 0]);
    var first := GetVariations456(OpenG, chord, 4)[0];
    var d := |OpenG| - |first|;
    assert OpenG[d] == G;
    assert d == 1 by {
      assert OpenG[0] == D && OpenG[2] == D;
    }
    OpenFive(first);
  }

  /** D sus2 in standard tuning: the six-string 10-0-0-9-10-0 (D A D E A E)
      is ranked. */
  lemma DSus2SixRanked()
    ensures [10, 0, 0, 9, 10, 0] in GetVariations456(Standard, ChordNotes(D, Sus2), 4)
  {
    DSus2Tones();
    var v: Placement := [10, 0, 0, 9, 10, 0];
    SoundedSix(Standard, v);
    assert Sounded(Standard, v) == {D, E, A};
    assert InWindow(v, 9, 4);
    assert Standard[0..] == Standard;
    RankedWitness(Standard, [D, E, A], 4, 0, 9, v);
  }

  /** So is the four-string 0-9-10-10 (D E A D) on the top four strings. */
  lemma DSus2FourRanked()
    ensures [0, 9, 10, 10] in GetVariations456(Standard, ChordNotes(D, Sus2), 4)
  {
    DSus2Tones();
    var v: Placement := [0, 9, 10, 10];
    SoundedFour(Standard[2..], v);
    assert Sounded(Standard[2..], v) == {D, E, A};
    assert InWindow(v, 9, 4);
    RankedWitness(Standard, [D, E, A], 4, 2, 9, v);
  }

  /** The key of 10-0-0-9-10-0: lowest stopped fret 9, fret sum 29. */
  lemma DSus2SixKey()
    ensures Key([10, 0, 0, 9, 10, 0]) == (9, 29)
  {
    var v: Placement := [10, 0, 0, 9, 10, 0];
    assert v[1..] == [0, 0, 9, 10, 0] && v[1..][1..] == [0, 9, 10, 0];
    assert v[1..][1..][1..] == [9, 10, 0] && v[1..][1..][1..][1..] == [10, 0];
    assert Sum(v) == 29;
    assert MinPositive(v) == Some(9);
  }

  /** The key of 0-9-10-10: lowest stopped fret 9, fret sum 29. */
  lemma DSus2FourKey()
    ensures Key([0, 9, 10, 10]) == (9, 29)
  {
    var v: Placement := [0, 9, 10, 10];
    assert v[1..] == [9, 10, 10] && v[1..][1..] == [10, 10] && v[1..][1..][1..] == [10];
    assert Sum(v) == 29;
    assert MinPositive(v) == Some(9);
  }

  /** Both have key (9, 29), and the six-string one is listed first, as the
      stable sort of the six-, five-, four-string concatenation leaves them. */
  lemma DSus2TieSixStringsFirst()
    ensures exists a, b ::
              && 0 <= a < b < |GetVariations456(Standard, ChordNotes(D, Sus2), 4)|
              && GetVariations456(Standard, ChordNotes(D, Sus2), 4)[a] == [10, 0, 0, 9, 10, 0]
              && GetVariations456(Standard, ChordNotes(D, Sus2), 4)[b] == [0, 9, 10, 10]
  {
    DSus2SixRanked();
    DSus2FourRanked();
    DSus2SixKey();
    DSus2FourKey();
    RankedTieOrder(Standard, ChordNotes(D, Sus2), 4, [10, 0, 0, 9, 10, 0], [0, 9, 10, 10]);
  }
}
