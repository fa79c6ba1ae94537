# Four-part voicing by dynamic programming

A Dafny model of the core of `voicing.py`, the harmony voicer. Given a key
and a progression of chords, it writes out a four-part (bass, tenor, alto,
soprano) realization with the lowest voice-leading cost. The core has two
halves:

- **Generation.** `voiceNote`, `_voiceTriadUnordered`, `_voiceChord` and
  `voiceChord` enumerate every admissible voicing of one chord. Each voice
  stays in its range. Adjacent upper voices are at most an octave apart. The
  chord's classes are doubled according to its type and inversion.
- **Selection.** `cost` scores the move from one voicing to the next.
  `voiceProgression` chains the per-chord voicing sets in a layered
  shortest-path table, then reads back the cheapest path.

Modules, one file each:

- `wrappers.dfy`, module `Wrappers`: the `Option` type.
- `pitches.dfy`, module `Pitches`: pitches as MIDI heights (C4 = 60), pitch
  classes, ranges, and `VoiceNote`.
- `voicings.dfy`, module `Voicings`: the voice ranges, `Voicing`, the chord
  descriptor `Chord`, and the generators. Each generator is a function
  returning its voicings in the order the source yields them. Each carries an
  exact membership characterization: a voicing is generated if and only if it
  keeps the order, spacing and range invariant (`Voiced`) and realizes one of
  the chord's doublings.
- `costs.dfy`, module `Costs`: the score as a sum of terms
  (`TransitionCost`), and the method `Cost` that accumulates it with the
  source's double loop over voice pairs. Lemmas state the individual rules and
  invariance under octave transposition.
- `progressions.dfy`, module `Progressions`: the table, its fill (`Relax`,
  `FillRow`, `FillTable`), the cheapest end (`CheapestEnd`), the walk back
  (`Backtrace`), and the proof that the chosen progression costs exactly the
  sum of its transition costs and no more than any other sequence through
  the layers. The table lemmas are stated over an arbitrary step-cost
  function. `Steps` instantiates them with `TransitionCost`.

Modelling decisions:

- A pitch is its MIDI height. A pitch class is the height modulo 12. The
  octave transposition `-P8` subtracts 12.
- A voicing lists its pitches lowest first. This is the order of a music21
  chord's sorted pitches, which `cost` indexes as bass, tenor, alto, soprano.
- A chord's roles come from the chord descriptor: bass-first notes, root,
  third, fifth, optional seventh, inversion and numeral. The source asks
  music21 to analyse the voiced chord for these roles.
- The chord member a rule looks up (`pitches.index(...)`) is the lowest voice
  sounding that class (`Costs.Carrier`).
- The seventh rule costs nothing when the first chord has no seventh or no
  voice sounds it. In that case music21 reports no seventh.
- The leading-tone rule needs the dominant's third to sound. The source
  fails with an exception otherwise. `LeadingToneDefined` states this
  precondition, and `Progressions.LayersAdmissible` proves that generated
  voicings of a consistent chord always meet it.
- The overlap test follows the code's six comparisons (`Costs.Overlapping`):
  - the new bass above the old tenor;
  - the new tenor below the old bass or above the old alto;
  - the new alto below the old tenor or above the old soprano;
  - the new soprano below the old alto.
- The leading-tone rule lets the third fall four semitones in any voice
  except index 3, the soprano (voicing.py:119).
- The table's infinite cost is a missing cost (`Entry.cost == None`).
- The source's dictionaries keyed by voicing become sequences indexed by
  position, so two equal voicings in a layer are separate entries.
- The source fails when the progression is empty or some chord has no
  voicing. In those cases `Optimize` and `VoiceProgression` return `None`.
  The source's three failures are:
  - an empty progression fails on the `dp[-1]` index (voicing.py:147);
  - an empty last layer makes `min` fail (voicing.py:147);
  - an earlier empty layer leaves every later entry without a predecessor,
    and the walk back fails on the `dp[i][None]` lookup (voicing.py:153).
- `voiceProgression` calls `voiceChord` inside the fill loop. The model
  generates every layer first (`ChordLayers`), then fills the table.
  Generation is a pure function of the chord, so the two are equivalent.

## Model

| member | source | states |
|---|---|---|
| Pitches.Spell | voicing.py:22 | the pitch named by a class and an octave number has that class and octave, and is the only such pitch |
| Pitches.OctaveScan | voicing.py:21-24 | the scan over octaves `octave..last` yields exactly the pitches of the class in the range whose octave lies between them, strictly ascending |
| Pitches.VoiceNote | voicing.py:17-24 | the pitches yielded for a class and a range are exactly the pitches of that class inside the range, each once, lowest first |
| Voicings.PermutationsSound | voicing.py:29 | each of the six orderings of the upper classes holds the same classes, each as often |
| Voicings.PermutationsComplete | voicing.py:29 | every rearrangement of the three upper classes is one of the six orderings |
| Voicings.VoicedByPlacement | voicing.py:30-36 | the alto and tenor bounds derived from the voice above, together with the bass-below-tenor filter, are exactly the order, spacing and range invariant of a four-part voicing |
| Voicings.PlaceTenors | voicing.py:36-37 | the innermost loop yields exactly the triads whose tenor is one of the given pitches, under the fixed alto and soprano |
| Voicings.PlaceAltos | voicing.py:33-37 | the middle loop yields exactly the triads whose alto is one of the given pitches and whose tenor has the tenor class within an octave below the alto and in the tenor range |
| Voicings.PlaceSopranos | voicing.py:30-37 | the outer loop yields exactly the triads whose soprano is given, whose alto is within an octave below it in the alto range, and whose tenor is within an octave below the alto in the tenor range, with the given classes |
| Voicings.VoicePermutation | voicing.py:29-37 | for one assignment of classes to tenor, alto and soprano, exactly the placed triads carrying those classes |
| Voicings.VoicePermutations | voicing.py:29-37 | over a list of class assignments, exactly the placed triads whose classes are one of them |
| Voicings.VoiceTriadUnordered | voicing.py:27-37 | the upper-voice triads are exactly the placed triads whose classes rearrange the three given classes |
| Voicings.BassesUnder | voicing.py:44-48 | exactly the voicings whose bass is one of the given pitches and lies at or below the lowest upper voice, with the triad above it unchanged |
| Voicings.AddBasses | voicing.py:43-48 | exactly the voicings whose upper voices are one of the triads and whose bass has the bass class, lies in the bass range and lies at or below the tenor |
| Voicings.VoiceChordNotes | voicing.py:40-48 | the voicings of a four-class list are exactly the voicings keeping the order, spacing and range invariant whose bass has the first class and whose upper voices rearrange the other three |
| Voicings.Doublings | voicing.py:58-74 | every class list handed to the four-class generator has four classes |
| Voicings.DoublingMultisets | voicing.py:58-74 | every class list handed to the four-class generator holds four classes: a seventh chord's own classes; a second-inversion triad's classes plus a second copy of its bass class; any other triad's classes plus a second copy of its root, third or fifth, or, for a root-position I only, three roots and the third; and every list but that last one keeps the chord's bass class first |
| Voicings.VoiceEach | voicing.py:58-74 | the concatenated generators yield exactly the voicings of one of the class lists |
| Voicings.VoiceChord | voicing.py:51-74 | a voicing is generated for a chord if and only if it keeps the order, spacing and range invariant and realizes one of the chord's doublings |
| Voicings.DoublingOf | voicing.py:51-74 | every generated voicing realizes some doubling of the chord, with the doubling's bass class in the bass and its classes in the voices, each as often |
| Voicings.VoicingDoubling | voicing.py:58-74 | every generated voicing sounds the classes its chord's doubling rule prescribes: a seventh chord's four classes once each, a second-inversion triad's bass class twice, otherwise the root, third or fifth doubled or, for a root-position I, three roots and the third |
| Voicings.SecondInversionDoublesFifth | voicing.py:61-63 | every voicing of a second-inversion triad sounds its fifth in at least two voices |
| Voicings.DoublingKeepsBassAndThird | voicing.py:58-74 | every doubling of a consistent chord keeps the chord's bass class first and contains its third |
| Voicings.VoicingBassAndThird | voicing.py:42-45 | every voicing of a consistent chord has the chord's bass class in the bass and sounds the chord's third |
| Costs.CarrierFrom | voicing.py:109 | the voice found from `k` upward sounds the class and no voice between `k` and it does; no voice is found only when none from `k` upward sounds it |
| Costs.Carrier | voicing.py:109 | the looked-up voice is the lowest one sounding the class, and the lookup finds nothing exactly when no voice sounds it |
| Costs.FirstCarrierUnique | voicing.py:117 | only one voice is the lowest sounding a class |
| Costs.SeventhPenalty | voicing.py:107-112 | the seventh rule contributes either 0 or 80 |
| Costs.SeventhRule | voicing.py:107-112 | the seventh rule costs 80 if and only if the first chord has a seventh and the lowest voice sounding it rises or falls by more than two semitones |
| Costs.LeadingTonePenalty | voicing.py:114-120 | the leading-tone rule contributes either 0 or 80 |
| Costs.LeadingToneRule | voicing.py:114-120 | the leading-tone rule costs 80 if and only if the move is dominant to tonic and the lowest voice sounding the dominant's third neither rises a semitone nor, below the soprano, falls four |
| Costs.Cost | voicing.py:77-122 | the running score accumulated by the overlap test, the leaps, the double loop over voice pairs and the two resolution rules equals the sum of the five cost terms |
| Costs.MotionPenaltyPairs | voicing.py:94-105 | the double loop adds the parallel-fifth, parallel-octave and similar-motion terms of each of the six voice pairs exactly once |
| Costs.MotionCoversPair | voicing.py:94-105 | every pair of voices contributes its terms to the pair penalty |
| Costs.ParallelFifthsPenalised | voicing.py:100-101 | two voices a fifth apart (modulo octaves) in both voicings cost at least 60 |
| Costs.ParallelOctavesPenalised | voicing.py:102-103 | two voices an octave or unison apart (modulo octaves) in both voicings cost at least 100 |
| Costs.StaticPair | voicing.py:97-105 | a pair of voices held still costs 60 at a fifth and 100 at an octave or unison, and never the similar-motion point |
| Costs.SelfTransitionCost | voicing.py:77-122 | holding an ordered voicing costs exactly the fifths and octaves among its voices: no overlap, no leap, no similar motion, no seventh or leading-tone penalty |
| Costs.ClassShift | voicing.py:100-102 | moving a pitch by whole octaves keeps its class |
| Costs.ShiftClasses | voicing.py:109 | moving a voicing by whole octaves keeps the class each voice sounds |
| Costs.ShiftPair | voicing.py:97-105 | moving both voicings by whole octaves keeps each pair's terms |
| Costs.ShiftMotion | voicing.py:94-105 | moving both voicings by whole octaves keeps the pair terms |
| Costs.ShiftCarrier | voicing.py:109 | moving a voicing by whole octaves keeps the voice a class lookup finds |
| Costs.ShiftLeaps | voicing.py:81-92 | moving both voicings by whole octaves keeps the overlap and leap terms |
| Costs.ShiftSeventh | voicing.py:107-112 | moving both voicings by whole octaves keeps the seventh term |
| Costs.ShiftLeadingTone | voicing.py:114-120 | moving both voicings by whole octaves keeps the leading-tone term |
| Costs.OctaveShiftInvariant | voicing.py:77-122 | the score is unchanged when both voicings move by the same number of octaves |
| Progressions.Relax | voicing.py:139-145 | an entry's cost is the least, over reachable predecessors, of predecessor cost plus transition cost, and its predecessor is the first one achieving it; unreachable when no predecessor is reachable |
| Progressions.FillRow | voicing.py:135-145 | every entry of a row is filled as the recurrence prescribes: cost 0 and no predecessor in the first layer, the best relaxation after it |
| Progressions.FillTable | voicing.py:131-145 | the table has one row per layer, one entry per voicing, and every entry obeys the recurrence |
| Progressions.AppendRow | voicing.py:131-145 | adding a correctly filled row keeps the whole table correct |
| Progressions.CheapestEnd | voicing.py:147 | the end chosen has the least cost of the last row, an unreachable entry counting as infinite, and every earlier entry costs strictly more |
| Progressions.TraceStep | voicing.py:150-154 | in a later row an entry has a predecessor exactly when it has a cost, and that predecessor is reachable |
| Progressions.TableTraceable | voicing.py:150-154 | in a filled table the first row has no predecessors, and in later rows an entry has a predecessor exactly when it has a cost, pointing at a reachable entry of the previous row |
| Progressions.WalkExtend | voicing.py:151-153 | one more step back keeps the collected voicings and path in step with the table's predecessors |
| Progressions.ReversedWalk | voicing.py:154 | a completed walk, reversed, is the voicings of a linked path through the layers |
| Progressions.WalkStep | voicing.py:151-153 | a step back from a reached entry lands on a valid position of the previous layer and keeps the walk invariant |
| Progressions.WalkStuck | voicing.py:151-153 | the walk finds a missing predecessor only when the chosen end is unreachable |
| Progressions.WalkDone | voicing.py:154 | a walk that reaches the first layer started from a reachable end and yields a full linked path ending there |
| Progressions.Backtrace | voicing.py:150-154 | the walk back succeeds exactly when the chosen end is reachable, and then yields the voicings of a full path through the layers ending at it and linked by the predecessors |
| Progressions.TableLowerBound | voicing.py:139-145 | every entry a path through the layers reaches has a cost, and that cost is at most the path's total transition cost |
| Progressions.FirstRow | voicing.py:135-137 | the first layer's entries cost nothing and have no predecessor |
| Progressions.EntryViaPredecessor | voicing.py:141-145 | an entry's cost is its predecessor's cost plus the transition cost between them |
| Progressions.PathPrefix | voicing.py:150-154 | dropping the last step of a linked path leaves a linked path |
| Progressions.LinkedCost | voicing.py:141-145 | the entry at the end of a path linked by predecessors costs exactly the path's total transition cost |
| Progressions.EmptyLayerUnreached | voicing.py:139-145 | after an empty layer every entry is unreachable, with no cost and no predecessor |
| Progressions.ReachedLayersNonempty | voicing.py:147-154 | a reachable entry in the last layer implies every layer has a voicing |
| Progressions.AllLayersReached | voicing.py:135-145 | when every layer has a voicing, every entry of the last layer is reachable |
| Progressions.Optimal | voicing.py:147 | the least cost of the last row is at most the total transition cost of every full path through the layers |
| Progressions.ThroughFits | voicing.py:142 | every sequence of voicings through admissible layers can be scored |
| Progressions.PathCostIsScore | voicing.py:142 | the step costs summed along a path equal the progression cost of the voicings it names |
| Progressions.PathOf | voicing.py:150-154 | every sequence of voicings through the layers is named by some path |
| Progressions.OptimalVoicings | voicing.py:147-154 | a bound on every full path's cost bounds the progression cost of every sequence of voicings through the layers |
| Progressions.Optimize | voicing.py:131-154 | a result exists exactly when there is a chord and every layer has a voicing; then it is a full path linked by the table's predecessors ending at the first cheapest entry, its total is that entry's cost and the sum of its transition costs, and no sequence through the layers costs less |
| Progressions.LayersAdmissible | voicing.py:115-117 | every voicing generated for a consistent chord sounds its third, so the leading-tone lookup never fails |
| Progressions.ThroughCandidates | voicing.py:132-134 | the full sequences through the layers are exactly the sequences voicing each chord with one of its generated voicings |
| Progressions.VoiceProgression | voicing.py:125-154 | the layers are the generated voicings of each chord; a result exists exactly when there is a chord and every chord has a voicing; then it voices each chord with one of its voicings, and no such voicing of the progression costs less |

## Left out

- `showChords`, `showVoicings` and the command-line entry point
  (voicing.py:157-191) only render and print scores, so they are not modelled.
- The `print` of the total cost (voicing.py:148) is output only. The total is
  part of the result instead.
- Parsing the key name and roman numerals with music21 (voicing.py:127, 133)
  is not modelled. The key becomes its tonic and dominant classes, and each
  chord becomes a descriptor.
- Splitting a progression string into numerals (voicing.py:128-129) is string
  handling outside the core.
- Enharmonic spelling is not modelled. A class name written with an octave
  number is its MIDI height, so spellings such as B#3 or Cb4 (whose octave
  number differs from their height's) are out of scope.
- music21's analysis of a voiced chord's root, third and seventh is not
  modelled. The roles are read from the chord descriptor.
- The in-place `pop` of the bass class (voicing.py:42) and the deep copy of
  each triad (voicing.py:46) have no observable effect on the yielded chords.
  They are modelled as a split of the class list and a fresh voicing value.
- VoiceProgression: requires each descriptor to be consistent (in root
  position the bass is the root, and the third is among the notes), as
  music21's roman numerals are. Inconsistent descriptors are outside the
  model.
- Cost: requires the dominant's third to sound when the move is dominant to
  tonic, because the source raises an exception otherwise. That exception
  path is not modelled.
- Optimize: the source raises on an empty progression or an empty layer. The
  model returns `None` and does not distinguish the two exceptions.
