# GuitarMonkey chord search, modelled in Dafny

GuitarMonkey finds left-hand fingerings ("variations") for a chord on a
guitar with any tuning. This project models its search engine, `chords.py`,
as pure Dafny functions and proves what the engine promises. The engine has
four layers:

- **Pitch classes and chord templates** (`pitch.dfy`, module `Pitch`).
  This covers `Notes.add`, the `ChordTypes` offset tables and
  `get_chord_notes`.
- **The neck lattice** (`neck.dfy`, module `Neck`). `get_guitar_neck` builds
  a table of `12 + hand_range` frets by one column per string.
  `get_bool_neck` marks the cells that hold a chord tone.
- **The window search** (`search.dfy`, module `Search`). This is
  `get_variations`. A hand spanning `hand_range` frets is put at every start
  fret 1..12, and the open strings are always added. The search then forms
  the cartesian product of each string's chord-tone frets. It keeps the
  combinations whose strings sound exactly the chord's set of pitch classes
  (`validate_chord`, `_validate_all_notes_present`), and it removes repeats.
- **Merging and ranking** (`ranking.dfy`, module `Ranking`). This is
  `get_variations_456`. The search runs on the tuning, on the tuning without
  its lowest string, and on the tuning without its two lowest strings. Only
  placements whose lowest string sounds the chord's root are kept. The
  results are concatenated and sorted by (lowest stopped fret, fret sum).

`util.dfy` holds `Option`, `Result` and repeat-freedom helpers.
`scenarios.dfy` derives concrete fingerings in standard tuning and open-G
tuning from the general theorems.

Every operation also has a reference definition to check it against:

- `Search.IsVariation` defines a variation directly. It has the tuning's
  length, its stopped frets fit in one window `[i, i + hand_range - 1]` with
  `1 <= i <= 12`, and it sounds exactly the chord's tones.
  `Search.GetVariations` is proved equal to it as a set, and its result has
  no repeats.
- `Ranking.RootedVariation` defines a ranked result directly.
  `Ranking.GetVariations456` is proved to be sorted, to be a permutation of
  the three filtered lists, and to hold exactly the rooted variations once
  each. On equal keys, a placement on more strings comes first, because
  `list.sort` is stable and the six-string results are appended first.

Modelling choices:

- A pitch class is an `int` in 0..11. Python's `%` by 12 never returns a
  negative value, so it agrees with Dafny's `%`.
- The numpy arrays are `seq<seq<_>>`. `nonzero`, `vstack` and
  `itertools.product` are plain sequence functions.
- Python returns `list(out)` from a `set`, in hash order. The model lists
  placements in the order it first finds them. No property proved here
  depends on that order.
- The source raises an exception on three inputs, and each is a
  precondition: an empty tuning (`np.stack` of nothing), an empty chord
  (`chord[0]`), and a tuning of fewer than three strings in
  `get_variations_456` (`tuning[2:]` is then empty).
- With `hand_range` 0 the loop at chords.py:98 still runs for i = 1..12
  over empty windows. Only the open row is reachable, so the all-open
  placement is returned exactly when the open strings sound exactly the
  chord (`Search.NoHandRangeOnlyOpen`).

## Model

| member | source | states |
|---|---|---|
| Pitch.Add | chords.py:25-26 | `add` yields the one pitch class in 0..11 congruent to value + i, for offsets of any sign |
| Pitch.AddZero | chords.py:25-26 | adding 0 is the identity |
| Pitch.AddAdd | chords.py:25-26 | `add(a)` then `add(b)` equals `add(a + b)` |
| Pitch.AddInverse | chords.py:25-26 | `add(-i)` undoes `add(i)` |
| Pitch.IntervalOfAdd | chords.py:25-26 | for an offset within one octave, the upward interval from p to `p.add(o)` is o again |
| Pitch.Offsets | chords.py:47-58 | every chord template has 3 or 4 offsets, starts at 0 and climbs strictly inside one octave |
| Pitch.ChordNotes | chords.py:77-78 | one tone per template offset, in template order; the first tone is the root; each tone lies exactly its offset above the root; no tone repeats |
| Neck.GuitarNeck | chords.py:81-82 | the neck has 12 + hand_range rows of len(tuning) cells; row 0 is the tuning; cell (f, s) is tuning[s] raised by f semitones |
| Neck.NeckPeriodic | chords.py:81-82 | rows f and f + 12 of the neck are equal |
| Neck.NeckColumnCoversOctave | chords.py:81-82 | within frets 0..11 each string sounds every pitch class exactly once |
| Neck.BoolNeck | chords.py:85-89 | the mask ORs one equality test per chord tone; a cell is marked exactly when its pitch class is a chord tone |
| Search.ValidFrets | chords.py:104-110 | a string's list holds exactly the frets of its marked rows, with row 0 read as fret 0 and row r > 0 as fret r + i - 1 |
| Search.ReachableNeck | chords.py:95-102 | the stacked table has hand_range + 1 rows: the open row first, then frets i .. i + hand_range - 1 of the neck in order |
| Search.WindowMaskFret | chords.py:99-110 | a marked row of the open-plus-window table, read as a fret, is the open string or a fret in [i, i + hand_range - 1], and the string sounds a chord tone there; the converse holds too |
| Search.WindowFrets | chords.py:98-110 | `valid_pos[s]` holds a fret exactly when it is 0 or in the window and string s sounds a chord tone there |
| Search.Product | chords.py:112 | a tuple is in the product exactly when it has one entry per list and each entry comes from its list |
| Search.ProductStep | chords.py:112 | prepending each choice of the first list to every combination of the rest gives exactly the combinations of all lists |
| Search.ValidateChord | chords.py:139-150 | `validate_chord` compares the set of cells read off the neck with the chord's tones, so a chord with more distinct tones than there are strings never validates |
| Search.ChordToneCount | chords.py:150 | the chord's tone set has exactly as many elements as its template has offsets: 3 for a triad, 4 for a seventh chord |
| Search.TooFewStringsNeverValidate | chords.py:139-150 | placements on fewer strings than the template has offsets never validate, so a seventh chord never validates on three strings |
| Search.ValidateChordCells | chords.py:139-150 | `validate_chord` holds exactly when every cell read off the neck is a chord tone and every chord tone is read from some string |
| Search.ValidateIsExactCover | chords.py:139-150 | on the neck of a tuning, `validate_chord` holds exactly when the strings sound exactly the chord's set of tones |
| Search.KeepValid | chords.py:113-115 | a combination is kept exactly when it validates |
| Search.WindowVariations | chords.py:98-115 | one window start i contributes exactly the placements of the tuning's length whose stopped frets lie in window i and that sound exactly the chord |
| Search.AddAll | chords.py:94-115 | adding to `out` keeps it free of repeats, and it then holds exactly the old and the new placements |
| Search.WindowsThrough | chords.py:98-115 | after window starts 1..n, `out` is repeat-free and holds exactly the union of those windows' placements |
| Search.GetVariations | chords.py:92-116 | the result has no repeats and holds exactly the reference variations: sound (right length, reachable, exact cover) and complete |
| Search.VariationShape | chords.py:98-115 | every result has one fret per string, every fret lies in 0..11 + hand_range, and every string sounds a chord tone |
| Search.NoHandRangeOnlyOpen | chords.py:98-116 | with hand_range 0, only the all-open placement can be found, and it is found exactly when the open strings sound exactly the chord |
| Ranking.MinPositive | chords.py:135 | the lowest stopped fret is positive, occurs in the placement and is at most every stopped fret; it is absent exactly when every string is open |
| Ranking.SumZero | chords.py:135 | the fret sum is zero exactly when every string is open |
| Ranking.Sum | chords.py:135 | `sum(v)` is at least every fret of the placement |
| Ranking.Key | chords.py:135 | the first key component is the lowest stopped fret, and is 0 exactly when every string is open (the fallback where the source's `min` fails); the second is the fret sum, 0 exactly when every string is open and at least every fret |
| Ranking.InsertBy | chords.py:135 | inserting into a key-sorted list keeps it sorted and adds exactly the new element |
| Ranking.SortBy | chords.py:135 | the sort returns a key-sorted permutation of its input |
| Ranking.SortByKey | chords.py:134-135 | sorting by (lowest stopped fret, sum) gives a sorted permutation |
| Ranking.InsertByKeepsTies | chords.py:135 | inserting an element whose tie rank is at least every element's puts it in front of the elements of its own key, so equal keys stay ordered by that rank |
| Ranking.SortByKeepsTies | chords.py:135 | `list.sort` is stable: when the input is ordered by a secondary rank, equal-key elements of the output keep that order |
| Ranking.KeepRooted | chords.py:124-133 | the filter keeps exactly the placements whose first string sounds the root, and keeps a repeat-free list repeat-free |
| Ranking.RootedPart | chords.py:121-133 | the filtered search on the tuning without its `drop` lowest strings is repeat-free; it holds exactly the rooted variations of length len(tuning) - drop |
| Ranking.RootedCandidates | chords.py:119-133 | the concatenated filtered lists are repeat-free and hold exactly the rooted 6-, 5- and 4-string variations |
| Ranking.GetVariations456 | chords.py:119-136 | the result is sorted by key and is a permutation of the three filtered lists |
| Ranking.RankedExact | chords.py:119-136 | the ranked list has no repeats and holds exactly the rooted variations |
| Ranking.RankedWitness | chords.py:119-136 | any placement that fits some window start 1..12, sounds exactly the chord on the tuning without its `drop` lowest strings and has the root in the bass is ranked |
| Ranking.RankedBassAndCover | chords.py:119-136 | each ranked placement covers the highest len(tuning), len(tuning) - 1 or len(tuning) - 2 strings; the lowest of those strings sounds the root; together they sound exactly the chord |
| Ranking.CandidatesLongestFirst | chords.py:124-133 | the appended list holds the six-string results, then the five-string, then the four-string ones |
| Ranking.RankedLongerFirstOnTies | chords.py:124-135 | in the ranked list, of two placements with equal key the one covering more strings comes first |
| Ranking.RankedTieOrder | chords.py:124-135 | two ranked placements of equal key appear with the one on more strings ahead of the other |
| Ranking.RankedOrder | chords.py:134-135 | along the ranked list the lowest stopped fret never decreases; on equal lowest frets the sum never decreases |
| Ranking.GetVariations456AsWritten | chords.py:119-136 | the call as written fails exactly when some rooted variation has every string open; otherwise it returns the ranked list |
| Ranking.AllOpenRootedFails | chords.py:135 | a rooted all-open placement makes the call as written fail |
| Ranking.SortedHeadAllOpen | chords.py:134-135 | under the fallback key, an all-open placement anywhere in a sorted list means the head is all-open |
| Ranking.AllOpenRankedFirst | chords.py:134-136 | under the fallback key, a rooted all-open placement puts an all-open rooted placement first, on a subset whose lowest string is tuned to the root |
| Scenarios.GMajorTones | chords.py:77-78 | G major is spelled G, B, D |
| Scenarios.CMajorTones | chords.py:77-78 | C major is spelled C, E, G |
| Scenarios.OpenGMajorShapeFound | chords.py:92-136 | in standard tuning with hand range 4, 3-2-0-0-0-3 is found for G major and is ranked |
| Scenarios.OpenCMajorOnFiveStrings | chords.py:119-136 | in standard tuning, C major 3-2-0-1-0 is ranked as a five-string placement |
| Scenarios.InvertedCMajorFound | chords.py:92-116 | in standard tuning, 0-3-2-0-1-0 sounds C major and the six-string search finds it |
| Scenarios.InvertedCMajorDropped | chords.py:124-127 | that placement has E in the bass, so the ranking drops it |
| Scenarios.DSus2Tones | chords.py:77-78 | D sus2 is spelled D, E, A |
| Scenarios.DSus2SixRanked | chords.py:119-136 | in standard tuning with hand range 4, D sus2 10-0-0-9-10-0 is ranked |
| Scenarios.DSus2FourRanked | chords.py:119-136 | so is the four-string 0-9-10-10 on the top four strings |
| Scenarios.DSus2SixKey | chords.py:135 | 10-0-0-9-10-0 has key (9, 29) |
| Scenarios.DSus2FourKey | chords.py:135 | 0-9-10-10 has key (9, 29) too |
| Scenarios.DSus2TieSixStringsFirst | chords.py:124-135 | of these two equal-key placements, the six-string one is listed first |
| Scenarios.NoGMajorFromOpenStandard | chords.py:98-116 | with hand range 0, standard tuning yields no G major placement |
| Scenarios.OpenGTuningOpenFiveRooted | GuitarMonkey.py:15-22 | in open-G tuning D G D G B D, which the settings allow, the five open high strings form a rooted G major variation |
| Scenarios.OpenGTuningRankingFails | chords.py:135 | so `get_variations_456` as written fails for open-G tuning, G major and hand range 4 |
| Scenarios.OpenGTuningAllOpenRankedFirst | chords.py:134-136 | with the fallback key, that query ranks 0-0-0-0-0 first |

## Left out

- `Notes.__str__` and `ChordTypes.__str__`: display-name tables with no behaviour.
- The `__main__` demo block of `chords.py`: it prints results and repeats `get_variations_456` by hand.
- `guitar_svg.py`: floating-point SVG drawing through `svgwrite`. It is presentation only.
- `GuitarMonkey.py`: the Streamlit page, the saved-chord session list, the `-1` padding of short placements and `format_variation`. These are user-interface code.
- Python's set iteration order in `list(out)`. It is not determined by the code, so no element order of `get_variations` is claimed.
- Ranking.SortByKeepsTies: stability is stated relative to a secondary rank the input is already ordered by (here the number of strings), not as positions kept. Equal-key placements from the same subset are ordered by the unspecified set order, so nothing is claimed about them.
- Search.ValidFrets: states which frets are listed, not that they come in ascending row order. The product and the set discard that order.
- Search.Product: states which tuples occur, not the `itertools.product` order. The result set discards it.
- Ranking.KeepRooted: states which placements are kept, not that their relative order is preserved. The final sort reorders them.
- Negative `hand_range`: the model takes a natural number. The page passes 4 and the default is 5.
- Determinism of repeated calls needs no lemma, since every operation is a pure function.

## Findings

| source | as written | input that shows it | evidently intended | confidence | as-written member | corrected member |
|---|---|---|---|---|---|---|
| chords.py:135 | the sort key takes `min` of the stopped frets of every kept placement, which raises `ValueError` for a placement with every string open | open-G tuning D G D G B D (selectable per string in the settings), G major, hand range 4: the five open high strings G D G B D sound exactly G, B, D with G in the bass, so 0-0-0-0-0 is kept | rank a placement with no stopped fret as if its lowest stopped fret were 0, so the query returns a sorted list with 0-0-0-0-0 first | not executed; high (the failing call is proved for the model of the code as written) | Ranking.GetVariations456AsWritten (failure proved by Scenarios.OpenGTuningRankingFails) | Ranking.GetVariations456 (sorted permutation proved for all inputs; Scenarios.OpenGTuningAllOpenRankedFirst) |
