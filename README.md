# teoria pitches, chords and music tables in Dafny

This project models the core of teoria, a JavaScript music-theory library:
- spelled pitches (lib/pitch.js);
- chords built from a root pitch and a chord symbol (lib/chord.js);
- the constant tables both read (lib/knowledge.js).

**Coordinates.** A pitch is a coordinate `(steps, semis)` relative to A4:
- `steps` counts diatonic letter steps;
- `semis` counts chromatic semitones.

Every readout is an integer function of that coordinate: octave, letter name, accidental, piano key, MIDI number, chroma, scientific and Helmholtz spelling. Intervals live in the same coordinate space. `interval` and `transpose` add and subtract coordinates.

**Pitches.** The `Pitch` object is a class whose one field, `coord`, is overwritten by `transpose`. `enharmonics` creates fresh pitches and moves each accepted candidate in place.

**Chords.** A `Chord` holds:
- its name;
- its symbol;
- a shared root `Pitch`;
- the intervals the symbol stands for;
- a voicing, which the slash-bass constructor, `voicing(v)` and `resetVoicing` rewrite.

`quality()` is modelled as the decision table it is. Each `return` statement is a constructor of `QualityRule`, tested in source order.

**Tables.** The tables of lib/knowledge.js are Dafny constants. A property lookup on an object literal, including the names every object inherits from `Object.prototype`, is `Lookup` plus `ObjectPrototypeKeys`.

**JavaScript semantics made explicit:**
- `%` truncates toward zero (`Js.Rem`).
- `undefined` concatenated into a string reads `undefined` (`Js.Text`).
- `name()` has no letter for a pitch whose step count from C0 is negative, unless it lands on a C. The readouts that would then throw require `Spelled`. The methods that can reach such a pitch return an error value.

**Constants from `pitchcoord`.** That package is not part of this model, so its constants are fixed here:
- `A4 = (33, 57)`;
- `sharp = (0, 1)`;
- natural semitones `0 2 4 5 7 9 11` for c d e f g a b.

These are the values the pitch tests require. The comment at lib/knowledge.js:3 calls the coordinates "[octave, fifth]", but the code and tests use (steps, semitones), so the model follows them.

**`parallel()` direction.** For a major triad the code asks for `root.interval('m3', 'down')` (lib/chord.js:142), a minor third down, where the relative minor lies. `Pitch.interval` takes a single argument (lib/pitch.js:81-88) and ignores `'down'`, so both branches go a minor third up. `Chords.Chord.Parallel` follows the code. The discrepancy is listed under Findings.

**Collaborators.** lib/interval.js, lib/note.js, lib/scale.js and lib/vector.js are not part of this model. They enter as parameters:
- `Intervals.IntervalLib` holds the interval operations `quality`, `number`, `base`, `invert`, `simple`, `direction` and `toString`. `base` is given the `octaveIsSimple` setting explicitly.
- `Chords.Env` holds the chord-symbol parser (`daccord` followed by `Interval.toCoord`) and the coordinate of `Note.fromString`.
- `Pitches.Scale` holds a scale's tonic and its interval template.
- `vector.add`, `sub` and `mul` are component-wise (`Coords`).

## Model

| member | source | states |
|---|---|---|
| Js.Rem | lib/pitch.js:35 | JavaScript `%` for a positive divisor: the remainder is congruent to the dividend modulo `d`, lies strictly between `-d` and `d` and takes the dividend's sign, which fixes it as the remainder of truncated division |
| Js.RemAgreesWhenNonNegative | lib/pitch.js:34-36 | the truncating remainder is a valid table index exactly when the dividend is not negative or the division is exact, and then it is the Euclidean remainder |
| Js.IntToString | lib/pitch.js:112 | `String(n)` starts with `-` exactly for negative `n`; the rest is a non-empty run of decimal digits, without leading zeros, whose value is `|n|` |
| Js.NatToString | lib/pitch.js:112 | decimal digits only, denoting `n` (`DecimalValue`), with a leading `0` only for 0 itself, and more than one digit exactly from 10 up |
| Js.Upper | lib/pitch.js:112 | `toUpperCase` as applied here, to the letter names `c` to `b`: keeps the length and upper-cases each letter |
| Js.Lower | lib/pitch.js:101 | `toLowerCase` as applied here, to the letter names `c` to `b`: keeps the length and lower-cases each letter |
| Js.TrimStart | lib/chord.js:50-52 | `trim` removes a prefix made only of ECMAScript white space and line terminators and stops at a non-space |
| Js.TrimEnd | lib/chord.js:50-52 | `trim` removes a suffix made only of white space and stops at a non-space |
| Knowledge.LookupMeaning | lib/chord.js:315-316 | a property lookup on a table finds nothing exactly when no row has the key, and otherwise returns the value of a row with that key |
| Knowledge.LookupAt | lib/knowledge.js:117-130 | the first row with a key is the one a lookup of that key returns |
| Knowledge.TonesTable | lib/knowledge.js:28 | seven distinct letters, with natural semitone offsets strictly increasing inside one octave |
| Knowledge.AccidentalsTable | lib/knowledge.js:29 | five distinct signs from `bb` through the empty natural sign to `x` |
| Knowledge.IntervalsTable | lib/knowledge.js:7-24 | reference entry `k` spans `k` diatonic steps and is named by `intervalsIndex[k]`; semitone sizes strictly increase up to the octave `(7, 12)` |
| Knowledge.AlterationsTable | lib/knowledge.js:57-60 | perfect classes have 5 qualities centred on `P`; minor/major classes have 6 with `m` and `M` in the middle; the two share their diminished and augmented ends |
| Knowledge.SolfegeGap | lib/knowledge.js:132-179 | dd2, dd3, AA3, dd6, dd7 and AA7 have no syllable, as the table's comment says |
| Knowledge.SolfegeOctaveIsUnison | lib/knowledge.js:140-179 | 38 entries; the octave-class syllables dd8..AA8 repeat the unison-class syllables dd1..AA1 |
| Knowledge.ChordShortSymbolsDistinct | lib/knowledge.js:83-115 | no two chord names share a short symbol |
| Knowledge.ChordShortInjective | lib/knowledge.js:83-115 | two chord names that look up the same symbol are the same name |
| Knowledge.StepNumberSynonyms | lib/knowledge.js:117-120 | `unison` and `first` both name step 1 |
| Knowledge.StepNumberGaps | lib/knowledge.js:117-130 | there is no step word for the tenth or the twelfth |
| Pitches.Octave | lib/pitch.js:30-32 | the octave is the floor of the step count from C0 divided by 7 |
| Pitches.LetterIndex | lib/pitch.js:34-36 | a letter exists exactly when the step count from C0 is not negative or is a multiple of 7, and then it is that count modulo 7 |
| Pitches.Name | lib/pitch.js:34-36 | `name()` is defined exactly for spelled pitches and is the letter at the letter index |
| Pitches.AccidentalValue | lib/pitch.js:38-40 | semitones from C0 = 12 x octave + the letter's natural offset + the accidental value |
| Pitches.Accidental | lib/pitch.js:42-44 | the sign exists exactly for accidental values -2..2 and is the table entry at value + 2 |
| Pitches.Midi | lib/pitch.js:59-61 | the MIDI number is 69 (A4) plus the semitones from A4 |
| Pitches.Chroma | lib/pitch.js:77-79 | the chroma lies in 0..11 |
| Pitches.PitchAt | lib/pitch.js:84-85 | the pitch `interval(i)` returns lies `i` away: their difference is `i` |
| Pitches.Between | lib/pitch.js:86-87 | the interval `interval(q)` returns leads from this pitch to `q` |
| Pitches.Padded | lib/pitch.js:11-17 | `pad` keeps `str` as a prefix and appends exactly `max(len, 0)` copies of `ch` |
| Pitches.Pad | lib/pitch.js:11-17 | the decrementing loop of `pad` computes `Padded` |
| Pitches.Scientific | lib/pitch.js:111-113 | scientific notation is `toString()` with the octave and starts with an upper-case letter A..G |
| Pitches.FromKey | lib/pitch.js:195-199 | `fromKey(k).key() == k` |
| Pitches.FromMidi | lib/pitch.js:213-215 | `fromMIDI(m).midi() == m` |
| Pitches.SpelledAs | lib/pitch.js:30-40 | a coordinate at octave `o`, letter `i` and accidental `v` reads back exactly those parts |
| Pitches.ScientificAs | lib/pitch.js:111-113 | such a coordinate is written upper-case letter, accidental sign, octave number |
| Pitches.SpellingParts | lib/pitch.js:34-44 | a pitch named letter `i` with sign `v` sits at letter `i` and accidental `v` of its octave |
| Pitches.ScientificA4 | test/notes.js:100-102 | `[0, 0]` is A4 |
| Pitches.ScientificCSharp3 | test/notes.js:104-106 | `[-12, -20]` is C#3 |
| Pitches.ScientificF5 | test/notes.js:108-110 | `[5, 8]` is F5 |
| Pitches.ScientificAFlat4 | test/notes.js:112-114 | `[0, -1]` is Ab4 |
| Pitches.OctaveShift | lib/pitch.js:30-44 | adding `(7, 12)` keeps letter and accidental and raises the octave by one, also in scientific notation |
| Pitches.ChromaIsResidue | lib/pitch.js:77-79 | the double truncating remainder equals the Euclidean residue of the semitones from C0 |
| Pitches.ChromaFromSpelling | lib/pitch.js:77-79 | chroma = (letter's natural offset + accidental value) mod 12 |
| Pitches.EnharmonicChroma | test/notes.js:189-232 | pitches on the same key share the chroma (Dbb and C, Bx and C#) |
| Pitches.FromKeySpelling | lib/pitch.js:195-199 | `fromKey` spells every key from C0 up, and never with a double accidental |
| Pitches.FromKeyExamples | test/notes.js:117-168 | key 20 is E2, key 49 is A4, key 72 is G#6, MIDI 61 is C#4 |
| Pitches.HelmholtzByOctave | lib/pitch.js:98-106 | from octave 3 up: lower case plus (octave - 3) apostrophes; octave 2: upper case, no mark; below: upper case plus (2 - octave) commas |
| Pitches.HelmholtzExamples | test/notes.js:23-63 | A4 is `a'` and C#5 is `c#''` |
| Pitches.RespellNeighbour | lib/pitch.js:124-128 | a neighbour one or two letters away, moved by `diff - acc` sharps, sounds on this pitch's key, keeps its own letter (never this pitch's) and carries the accidental the filter tests |
| Pitches.RespellingsFail | lib/pitch.js:121-131 | the candidate scan fails exactly when some candidate has no letter |
| Pitches.RespellingsSound | lib/pitch.js:121-131 | at most one kept pitch per offset, each on this pitch's key, inside the accidental limit, on another letter |
| Pitches.RespellingsOrdered | lib/pitch.js:121-131 | the kept pitches lie on the letters their offsets reach, in offset order |
| Pitches.RespellingsComplete | lib/pitch.js:121-131 | the filter keeps exactly the candidates inside the limit: every candidate has a letter, and its respelling is in the result if and only if `Keeps` holds for it |
| Pitches.EnharmonicsComplete | lib/pitch.js:118-132 | `enharmonics` returns each of the four neighbours, respelled onto this key, exactly when that respelling needs fewer accidentals than the limit |
| Pitches.EnharmonicsSound | lib/pitch.js:118-132 | `enharmonics` fails only when a neighbour has no letter; otherwise it returns at most 4 pitches in m3, m2, m-2, m-3 order, each sounding on this key, on another letter, with accidental magnitude below 2 (one-accidental mode) or 3 |
| Pitches.EnharmonicOffsetsValue | lib/pitch.js:121 | the four neighbours are `(2,3)`, `(1,1)`, `(-1,-1)`, `(-2,-3)` |
| Pitches.EnharmonicsOfC | test/notes.js:268-288 | a natural C above octave 0 is enharmonic with the Dbb above and the B# below, or only the B# with one accidental |
| Pitches.EnharmonicsOfFFlat | test/notes.js:273-293 | Fb is enharmonic with the E and the Dx below, or only the E with one accidental |
| Pitches.EnharmonicsOfCFlat | test/notes.js:278-298 | Cb above octave 0 is enharmonic with the B and the Ax below, or only the B with one accidental |
| Pitches.EnharmonicsOfC0 | lib/pitch.js:118-132 | on C0 `enharmonics` throws: the B below has no letter |
| Pitches.DegreeFoldLastMatch | lib/pitch.js:160-163 | the `reduce` gives 0 when no entry matches, otherwise the 1-based position of the last match |
| Pitches.ScaleDegree | lib/pitch.js:149-164 | the degree never exceeds the template length |
| Pitches.ScaleDegreeMeaning | lib/pitch.js:149-164 | `scaleDegree` is 0 exactly when no template entry equals the reduced interval, otherwise the last matching position |
| Pitches.OctaveCount | lib/pitch.js:140-141 | the octave count is the integer `c` with `7c <= d < 7c + 7` |
| Pitches.OctaveCountIsFloor | lib/pitch.js:140-141 | both branches of the count are the floor of `d / 7` |
| Pitches.OctaveMarks | lib/pitch.js:142-146 | count 0 leaves the syllable as is; a positive count appends that many apostrophes; a negative one that many commas |
| Pitches.SolfegeOctaveMarks | lib/pitch.js:134-147 | `solfege(scale, true)` marks the octaves between the pitch and the tonic that way, keeping undefined for a table gap at count 0 |
| Pitches.Pitch.constructor | lib/pitch.js:20-23 | a new pitch holds the given coordinate |
| Pitches.Pitch.Transpose | lib/pitch.js:90-93 | `transpose` moves this pitch to where `interval(i)` points, returns this pitch, and the interval from the old to the new coordinate is `i` |
| Pitches.Pitch.Enharmonics | lib/pitch.js:118-132 | fresh pitches at exactly the coordinates `EnharmonicSpellings` gives, in order, or failure exactly where that fails; this pitch is unchanged |
| Pitches.RespelledPitches | lib/pitch.js:121-131 | the `map`/`filter` loop: one fresh pitch per kept candidate, at the coordinate `Respellings` gives |
| Chords.ChordNameKeepsSymbol | lib/chord.js:43-44 | a chord's name is the root's `toString(true)` followed by the whole symbol |
| Chords.SlashSplitMeaning | lib/chord.js:49-55 | the slash split succeeds exactly with one `/` whose trimmed tail is not `9` |
| Chords.SlashSplitShape | lib/chord.js:49-55 | a successful split's head is everything before the only `/`, and its tail is the trimmed rest, never `9` |
| Chords.BassText | lib/chord.js:50-60 | a bass note exists only for a successful split with a non-empty tail, and is that tail |
| Chords.Keep | lib/chord.js:70-73 | the loop's filter keeps at most the intervals it is given |
| Chords.KeepMembers | lib/chord.js:70-73 | the filter keeps exactly the intervals whose simple form differs from the bass's |
| Chords.KeepAppend | lib/chord.js:70-73 | the filter keeps the original order |
| Chords.SlashVoicing | lib/chord.js:61-73 | a slash voicing is the inverted, descending bass interval followed by the filtered intervals |
| Chords.BuildSlashVoicing | lib/chord.js:61-73 | the constructor's slash branch builds `SlashVoicing`: the inverted descending bass interval, then the push loop |
| Chords.PushKept | lib/chord.js:69-73 | the `push` loop appends, in order, exactly the intervals `Keep` keeps |
| Chords.PlainVoicing | lib/chord.js:49-58 | with no single `/`, or with a `/9` tail, the whole symbol is parsed and the voicing equals the intervals |
| Chords.SlashBassVoicing | lib/chord.js:60-74 | with a bass note, `voicing[0]` is the inverted descending bass interval and the rest are exactly the other-class intervals, in order |
| Chords.SlashHead | lib/chord.js:49-52 | a slash chord hands only the part before the `/` to the parser |
| Chords.SlashPrefix | lib/chord.js:49-52 | that part followed by `/` begins the symbol |
| Chords.SlashBass | lib/chord.js:50-60 | the bass note is the slash part whenever that part is not empty |
| Chords.ParsedVoicing | lib/chord.js:49-74 | the constructor's parse yields the intervals of the parsed symbol and the voicing built from them |
| Chords.FirstIndex | lib/chord.js:298-303 | the scan finds the first index satisfying the test, or nothing when none does |
| Chords.DegreeOf | lib/chord.js:295-304 | `getDegree(n)` is the first interval whose number is `n` modulo 7 (truncating), or null exactly when there is none |
| Chords.DegreeOctaveEquivalent | lib/chord.js:295-304 | `getDegree(n + 7) == getDegree(n)`, e.g. 9 and 2 |
| Chords.NumberedOf | lib/chord.js:309-314 | `get`'s scan finds the first interval whose number is exactly `n`, with no octave reduction |
| Chords.GetStepWords | lib/chord.js:315-323 | `get('ninth')` is `get(9)`; `get('unison')` and `get('first')` are `get(1)` |
| Chords.StepNumberNinth | lib/knowledge.js:127 | `ninth` names step 9 |
| Chords.GetMissingWord | lib/chord.js:315-326 | `get('tenth')` throws `Invalid interval name` |
| Chords.GetInheritedName | lib/chord.js:315-323 | `get('toString')` passes the `in` test through the prototype and returns null |
| Chords.SlotType | lib/chord.js:257-293 | 2 intervals give `dyad`; 3 give `triad` or `trichord`, never `unknown`; 4 give `tetrad` or `unknown`; any other count gives `unknown` |
| Chords.MarkSlotMeaning | lib/chord.js:264-271 | one loop step sets a slot exactly when it was set or the interval's class, or failing that its inversion's, is that slot |
| Chords.MarkSlotsMeaning | lib/chord.js:263-285 | after the loop a slot is set exactly when some interval marks it |
| Chords.SlotTypeMeaning | lib/chord.js:257-293 | 3 intervals are a triad, and 4 a tetrad, exactly when every slot is marked |
| Chords.ChordTypeMeaning | lib/chord.js:257-293 | the same with the source's slot names `first`, `third`, `fifth`, `seventh` |
| Chords.NoFirstNoTriad | lib/chord.js:263-289 | the `first` slot is set only by a class literally named `first`; without one there is never a triad or tetrad |
| Chords.IndexNamesNoTriad | lib/chord.js:263-289 | with class names from `intervalsIndex`, which calls the first class `unison`, `chordType` never returns `triad` or `tetrad` |
| Chords.RootThirdFifthAsWritten | lib/chord.js:262-274 | a root, third and fifth named as `base()` names them make a `trichord` |
| Chords.RootThirdFifthCorrected | lib/chord.js:262-274 | with the root slot named `unison` they make a `triad` |
| Chords.ShortRow | lib/knowledge.js:83-115 | every quality except `other` is the key of a `chordShort` row |
| Chords.QualityRange | lib/chord.js:191-255 | `quality()` returns one of 22 strings, each a `chordShort` key except `other`; the repeated tests at lines 214 and 224 never decide |
| Chords.QualityNameListed | lib/chord.js:191-255 | every `return` yields one of the 22 strings |
| Chords.Dominant11thFirst | lib/chord.js:199-200 | dominant-11th exactly when there is no third, a minor seventh, a major second and a perfect fourth |
| Chords.Dominant13thOverAugmented | lib/chord.js:201-202 | a minor seventh, major third and major sixth give dominant-13th, whatever the fifth |
| Chords.AugmentedBeforeDominant | lib/chord.js:205-210 | with a major third and an augmented fifth, and no major sixth, the result is augmented(-seventh), ahead of the dominant branch |
| Chords.SuspendedWithoutThird | lib/chord.js:248-252 | the suspended qualities need a third that is neither major nor minor and a perfect or missing fifth |
| Chords.Chord.constructor | lib/chord.js:40-75 | the name keeps the whole symbol; the intervals are those of the parsed head; the voicing is the slash voicing when there is a bass note, else the intervals |
| Chords.Chord.Notes | lib/chord.js:78-83 | one note per voicing interval, in voicing order, each that interval away from the root |
| Chords.Chord.SimpleNames | lib/chord.js:85-87 | the notes' `toString(true)` names in order, each the scientific name less its octave number; the TypeError exactly when some note has no letter |
| Chords.Chord.Bass | lib/chord.js:89-91 | the first note, undefined exactly for an empty voicing |
| Chords.Chord.GetDegree | lib/chord.js:295-304 | the early-return loop computes `DegreeOf` |
| Chords.Chord.FindNumbered | lib/chord.js:309-314 | the early-return loop computes `NumberedOf` |
| Chords.Chord.Get | lib/chord.js:306-327 | `get` returns what `GetOf` says: numbers scanned exactly, step words mapped first, anything else an error |
| Chords.Chord.ChordType | lib/chord.js:257-293 | the slot-marking loop computes `ChordTypeOf` |
| Chords.Chord.SetVoicing | lib/chord.js:103-116 | `voicing(v)` replaces the whole voicing with `v`, keeps the name, and returns the chord |
| Chords.Chord.ResetVoicing | lib/chord.js:118-120 | the voicing becomes the intervals again |
| Chords.Chord.Rooted | lib/chord.js:329-331 | a fresh chord on a fresh root `i` away, built as the constructor would, or the TypeError exactly when that root has no letter |
| Chords.Chord.Dominant | lib/chord.js:122-125 | a fresh chord on a fresh root a perfect fifth up, with the constructor's whole state for the given symbol (`BuiltOn`: name, intervals, voicing) exactly when that root has a letter, and the TypeError otherwise |
| Chords.Chord.Subdominant | lib/chord.js:127-130 | a fresh chord on a fresh root a perfect fourth up, with the constructor's whole state for the given symbol exactly when that root has a letter, and the TypeError otherwise |
| Chords.Chord.AtInterval | lib/chord.js:329-331 | a fresh chord on a fresh root `i` away, with the constructor's whole state for the same symbol exactly when that root has a letter, and the TypeError otherwise |
| Chords.Chord.Parallel | lib/chord.js:132-146 | throws unless the chord is a triad that is neither diminished nor augmented; otherwise a fresh chord on a fresh root a minor third above, symbol `m` exactly when this chord is major, with the constructor's whole state, or the TypeError exactly when that root has no letter |
| Chords.Chord.Relative | lib/chord.js:132-146 | the relative chord, under the corrected triad test: a fresh chord a minor third below a major triad (symbol `m`) or above a minor one, with the constructor's whole state, or the TypeError exactly when that root has no letter |
| Chords.ParallelRootAsWritten | lib/chord.js:141-142 | as written, the parallel of a C major triad is rooted on the E flat of the same octave |
| Chords.RelativeRoot | lib/chord.js:141-142 | the relative minor of C major is rooted on the A below |
| Chords.RelativeRootsReturn | lib/chord.js:141-144 | the relative of the relative returns to the original root; two minor thirds up never do |
| Chords.Chord.Transpose | lib/chord.js:333-339 | the shared root moves by `i` and the voicing stays; the name is rebuilt, or, when the new root has no letter, the call throws after the move and the name is unchanged |
| Chords.MajorMinorExclusive | lib/chord.js:93-101 | no chord is both major and minor |

## Left out

- `fq` and `fromFrequency` use floating-point `Math.pow`, `Math.log` and `Math.round` on frequencies. They are not modelled.
- `toXML`, `toXMLObject`, `fromXML`, `fromXMLObject` and `inspect` only format or parse text through XML and console-colour libraries. They are not modelled.
- `Pitch.coerce`, `Pitch.fromString` and the notation parsers (`scientific-notation`, `helmholtz`, `notecoord`, `daccord`) are not modelled. Pitches are built from coordinates.
- Chord-symbol parse errors are not modelled. The chord-symbol parser is the total function `Env.chordIntervals`, so a symbol `daccord` would reject is not an error in the model.
- Bass-note parse errors are not modelled. The bass note's coordinate is the total function `Env.noteCoord`.
- lib/interval.js, lib/note.js, lib/scale.js and lib/vector.js are not part of this model. Their operations are parameters (`IntervalLib`, `Env`, `Scale`).
  - `Interval.between` is taken to be the coordinate difference.
  - `equal` is taken to be coordinate equality.
  - `vector.add`, `sub` and `mul` are taken to be component-wise.
- `Pitch.interval` with a string argument parses the string through `Interval.fromString`, which is not part of this model. The model takes the coordinates of the named intervals it needs (m2, m3, P4, P5, and m2 and m3 descending) from the reference interval table.
- `Interval.toCoord` is not modelled. `voicing(v)` takes its intervals already converted.
- index.js, lib/sugar.js and lib/misc.js are not modelled. They are glue, prototype patches and an unused helper.
- The `XML_HARMONIES` table and the commented-out old `quality` are not modelled, because nothing reads them.
- The `durations`, `qualityLong`, `symbols`, `fifths`, `intervalFromFifth` and `pitches` tables are not modelled, because the core does not read them.
  - `pitches` is the one exception. The core reads only its semitone offsets, which appear as `NaturalSemitones`.
- Pitches.AccidentalValue: requires a spelled pitch. The source indexes the pitch table with `undefined` there and throws a TypeError.
- Pitches.Accidental: requires a spelled pitch, for the same reason.
- Pitches.ToString: requires a spelled pitch. The source throws a TypeError when it upper-cases an undefined name.
- Pitches.Scientific: requires a spelled pitch, for the same reason.
- Pitches.Helmholtz: requires a spelled pitch, for the same reason.
- Chords.Chord.constructor: requires a root with a letter. The source throws a TypeError for a root without one; `Chords.Chord.Rooted` models that error for the chords the class builds.
- Chords.ChordName: requires a root with a letter, for the same reason.
- Chords.Chord.Notes: returns the notes' coordinates rather than fresh `Pitch` objects, because nothing in the core mutates the returned notes.
- Chords.Chord.Get: returns the reached note's coordinate rather than a fresh `Pitch` object, for the same reason.
- JavaScript numbers are IEEE doubles, while the model's integers are unbounded. Coordinates, keys and MIDI numbers agree with the source only below 2^53 in magnitude, and `String(n)` (`Js.IntToString`) switches to exponent notation from 1e21; the model does neither.
- Pitches.FromKey: takes an integer key. The source also accepts a fractional number, which `Math.round` then handles; that case is not modelled.
- Chords.Chord.GetDegree: takes an integer. A fractional argument in the source matches no interval number; that case is not modelled.
- Chords.Chord.Get: takes an integer for a numeric argument, for the same reason.
- The truthy-tested parameters `white` (`key`), `dont` (`toString`), `oneaccidental` (`enharmonics`) and `showOctaves` (`solfege`) are `bool` here. Other JavaScript values are not modelled; they act as their truthiness.
- Chords.Chord.ResetVoicing: the source re-points the voicing at the interval array itself, so the two alias. No code in the core changes either array in place, and the model keeps both as values, so that aliasing is not represented.
- Chords.Chord.Parallel: drops the unused `additional` argument.
- The text of the TypeError is the one V8 reports (`UndefinedName`). Other engines word it differently.
- A missing or `null` chord symbol (`name || ''`) is not modelled. The symbol is always a string.
- The key uniqueness of the object-literal tables other than `chordShort` is not stated. Lookups use the first row with a key, which for object literals without repeated keys is the only one.
- The pitch-test examples of enharmonics (C4, Fb4, Cb4) are proved for every octave at which the spelling exists, rather than for octave 4 alone.
- The following are specification functions without contracts of their own. Each one's properties are stated by the lemmas and methods named beside it:
  - `Knowledge.Lookup`: `Knowledge.LookupMeaning`, `Knowledge.LookupAt`.
  - `Pitches.Key`: `Pitches.FromKey`, `Pitches.FromMidi`, `Pitches.EnharmonicChroma`.
  - `Pitches.ToString` (lib/pitch.js:169-171): `Pitches.Scientific`, `Pitches.ScientificAs`, `Pitches.OctaveShift`, `Chords.Chord.SimpleNames`.
  - `Pitches.Helmholtz`: `Pitches.HelmholtzByOctave`, `Pitches.HelmholtzExamples`.
  - `Pitches.Respellings` (lib/pitch.js:121-131): `Pitches.RespellingsFail`, `Pitches.RespellingsSound`, `Pitches.RespellingsOrdered`, `Pitches.RespellingsComplete`, `Pitches.RespelledPitches`.
  - `Pitches.DegreeFold` (lib/pitch.js:160-163): `Pitches.DegreeFoldLastMatch`, `Pitches.ScaleDegreeMeaning`.
  - `Pitches.Syllable` (lib/pitch.js:136-139) and `Pitches.Solfege`: `Pitches.SolfegeOctaveMarks`.
  - `Chords.SlashSplit` (lib/chord.js:49-55): `Chords.SlashSplitMeaning`, `Chords.SlashSplitShape`.
  - `Chords.GetOf` (lib/chord.js:306-327): `Chords.Chord.Get`, `Chords.GetStepWords`, `Chords.GetMissingWord`, `Chords.GetInheritedName`.
  - `Chords.ChordTypeOf` (lib/chord.js:257-293): `Chords.Chord.ChordType`, `Chords.ChordTypeMeaning`, `Chords.RootThirdFifthAsWritten`.
  - `Chords.QualityRuleOf` (lib/chord.js:199-254) and `Chords.Chord.Quality`: `Chords.QualityRange`, `Chords.QualityNameListed`, `Chords.Dominant11thFirst`, `Chords.Dominant13thOverAugmented`, `Chords.AugmentedBeforeDominant`, `Chords.SuspendedWithoutThird`.
  - `Chords.Chord.IsMajor` and `Chords.Chord.IsMinor`: `Chords.MajorMinorExclusive`.
  - `Pitches.EnharmonicSpellings` (lib/pitch.js:118-132): `Pitches.EnharmonicsSound`, `Pitches.EnharmonicsComplete`, `Pitches.EnharmonicOffsetsValue`, `Pitches.EnharmonicsOfC`, `Pitches.EnharmonicsOfFFlat`, `Pitches.EnharmonicsOfCFlat`, `Pitches.EnharmonicsOfC0`, `Pitches.Pitch.Enharmonics`.
  - `Pitches.EnharmonicLimit` (lib/pitch.js:119): `Pitches.EnharmonicsSound`.
  - `Pitches.Keeps` (lib/pitch.js:124-127): `Pitches.RespellingsSound`, `Pitches.RespellingsComplete`.
  - `Pitches.Respell` (lib/pitch.js:128): `Pitches.RespellNeighbour`, `Pitches.RespellingsSound`.
  - `Pitches.DegreeTarget` (lib/pitch.js:150-158): `Pitches.ScaleDegreeMeaning`.
  - `Pitches.OctaveMarked` (lib/pitch.js:142-146): `Pitches.OctaveMarks`, `Pitches.SolfegeOctaveMarks`.
  - `Chords.ParsedSymbol` (lib/chord.js:49-52): `Chords.SlashHead`, `Chords.PlainVoicing`, `Chords.ParsedVoicing`.
  - `Chords.BassInterval` (lib/chord.js:63-65): `Chords.SlashVoicing`, `Chords.SlashBassVoicing`.
  - `Chords.InitialVoicing` (lib/chord.js:57-74): `Chords.PlainVoicing`, `Chords.SlashBassVoicing`, `Chords.ParsedVoicing`, `Chords.Chord.constructor`.
  - `Chords.MarkSlot` and `Chords.MarkSlots` (lib/chord.js:264-271): `Chords.MarkSlotMeaning`, `Chords.MarkSlotsMeaning`, `Chords.Chord.ChordType`.
  - `Chords.QualityAt` and `Chords.DegreesOf` (lib/chord.js:192-196): `Chords.DegreeOf`, `Chords.Chord.GetDegree`, `Chords.QualityRange`.
  - `Chords.QualityName` (the `return` strings of lib/chord.js:199-254): `Chords.QualityNameListed`, `Chords.ShortRow`, `Chords.QualityRange`.

## Findings

| source | as written | input that shows it | evidently intended | confidence | as-written member | corrected member |
|---|---|---|---|---|---|---|
| lib/chord.js:263-285 | the slot record uses the key `first`, but `base()` names the first interval class `unison` (the `intervalsIndex` table; test/intervals.js:279-283) | the three intervals P1, M3, P5 of a major triad: bases `unison`, `third`, `fifth` leave `first` unset, so `chordType()` is `trichord` | the root slot keyed `unison`, so that a root, third and fifth make a `triad` | high, not executed | Chords.RootThirdFifthAsWritten | Chords.RootThirdFifthCorrected |
| lib/chord.js:141-144 | `this.root.interval('m3', 'down')`, but `Pitch.interval` ignores its second argument, so both branches go a minor third up | a C major triad on C4: the parallel is rooted on Eb4 (E flat minor) | the relative minor, a minor third down (A3, A minor), and for a minor triad the relative major a minor third up | high, not executed | Chords.ParallelRootAsWritten | Chords.Chord.Relative |

`Chords.Chord.Relative` uses `Chords.CorrectedChordType` for its triad test, so it reflects both corrections. `Chords.Chord.Parallel` and `Chords.Chord.ChordType` keep the source's behaviour.
