/**
 * Pitches (lib/pitch.js).  A pitch is a coordinate relative to A4; every
 * readout is an integer function of that coordinate, and the one mutator,
 * `transpose`, moves the coordinate by an interval.
 *
 * JavaScript's `%` truncates toward zero, so `name()` has no letter for a
 * pitch whose step count from C0 is negative, unless it lands on a C; the
 * readouts that go through `name()` and would throw require `Spelled`.
 */
module Pitches {
  import opened Wrappers
  import opened Js
  import opened Coords
  import opened Knowledge
  import opened Intervals

  // ---------------------------------------------------------------------
  // Readouts
  // ---------------------------------------------------------------------

  /** `octave()`: scientific octave number, counted from C0. */
  function Octave(p: Coord): (o: int)
    ensures 7 * o <= p.steps + A4.steps < 7 * o + 7
  {
    (p.steps + A4.steps) / 7
  }

  /** The index into `Tones` that `name()` uses, when it is one. */
  function LetterIndex(p: Coord): (r: Option<nat>)
    ensures r.Some? <==> (p.steps + A4.steps >= 0 || (p.steps + A4.steps) % 7 == 0)
    ensures r.Some? ==> r.value == (p.steps + A4.steps) % 7 < |Tones|
  {
    var i := Rem(p.steps + A4.steps, 7);
    RemAgreesWhenNonNegative(p.steps + A4.steps, 7);
    if 0 <= i < |Tones| then Some(i) else None
  }

  /** A pitch `name()` can spell: its letter index is not negative. */
  predicate Spelled(p: Coord) {
    LetterIndex(p).Some?
  }

  /** `name()`: the lower-case letter, or undefined. */
  function Name(p: Coord): (r: Option<string>)
    ensures r.Some? <==> Spelled(p)
    ensures r.Some? ==> r.value == Tones[LetterIndex(p).value]
  {
    match LetterIndex(p)
    case Some(i) => Some(Tones[i])
    case None => None
  }

  /** `accidentalValue()`: semitones above the natural of the same letter and octave. */
  function AccidentalValue(p: Coord): (v: int)
    requires Spelled(p)
    ensures p.semis + A4.semis == 12 * Octave(p) + NaturalSemitones[LetterIndex(p).value] + v
  {
    (p.semis + A4.semis) - (Octave(p) * 12 + NaturalSemitones[LetterIndex(p).value])
  }

  /** `accidental()`: the sign for values -2..2, undefined otherwise. */
  function Accidental(p: Coord): (r: Option<string>)
    requires Spelled(p)
    ensures r.Some? <==> -2 <= AccidentalValue(p) <= 2
    ensures r.Some? ==> r.value == Accidentals[AccidentalValue(p) + 2]
  {
    var i := AccidentalValue(p) + 2;
    if 0 <= i < |Accidentals| then Some(Accidentals[i]) else None
  }

  /** `key(white)`: piano key number (A4 is 49), or white-key number. */
  function Key(p: Coord, white: bool): int {
    if white then p.steps + A4.steps - 4 else p.semis + A4.semis - 8
  }

  /** `midi()`: MIDI note number; A4 is 69. */
  function Midi(p: Coord): (m: int)
    ensures m == 69 + p.semis
  {
    Key(p, false) + 20
  }

  /** `chroma()`: pitch class, by a truncating remainder corrected once. */
  function Chroma(p: Coord): (c: int)
    ensures 0 <= c < 12
  {
    (Rem(p.semis + A4.semis, 12) + 12) % 12
  }

  // ---------------------------------------------------------------------
  // Interval arithmetic
  // ---------------------------------------------------------------------

  /** `interval(i)` with an Interval: the pitch `i` away. */
  function PitchAt(p: Coord, i: Interval): (q: Coord)
    ensures Sub(q, p) == i.coord
  {
    Add(p, i.coord)
  }

  /** `interval(q)` with a Pitch: the interval from `p` up to `q`. */
  function Between(p: Coord, q: Coord): (i: Interval)
    ensures Add(p, i.coord) == q
  {
    Interval(Sub(q, p))
  }

  // ---------------------------------------------------------------------
  // Spellings
  // ---------------------------------------------------------------------

  /** `pad(str, ch, len)`: `str` followed by `len` copies of `ch`; nothing when `len <= 0`. */
  function Padded(str: string, ch: char, len: int): (r: string)
    ensures |r| == |str| + (if len > 0 then len else 0)
    ensures r[..|str|] == str
    ensures forall k :: |str| <= k < |r| ==> r[k] == ch
  {
    str + Repeat(ch, if len > 0 then len else 0)
  }

  /** The loop of `pad`: append one character per step, counting `len` down. */
  method Pad(str: string, ch: char, len: int) returns (r: string)
    ensures r == Padded(str, ch, len)
  {
    r := str;
    var n := len;
    while n > 0
      invariant n <= 0 ==> r == Padded(str, ch, len)
      invariant n > 0 ==> r == str + Repeat(ch, len - n)
      decreases n
    {
      r := r + [ch];
      n := n - 1;
    }
  }

  /** `toString(dont)`: upper-case letter, accidental and, unless `dont`, the octave. */
  function ToString(p: Coord, dont: bool): string
    requires Spelled(p)
  {
    Upper(Name(p).value) + Text(Accidental(p)) + (if dont then "" else IntToString(Octave(p)))
  }

  /** `scientific()`: upper-case letter, accidental and octave number. */
  function Scientific(p: Coord): (s: string)
    requires Spelled(p)
    ensures s == ToString(p, false)
    ensures 'A' <= s[0] <= 'G'
  {
    UpperLetter(LetterIndex(p).value);
    Upper(Name(p).value) + Text(Accidental(p)) + IntToString(Octave(p))
  }

  /** Names without octaves, each followed by its octave number, give the scientific names. */
  lemma NamesWithoutOctaves(ps: seq<Coord>, names: seq<string>)
    requires |names| == |ps|
    requires forall k :: 0 <= k < |ps| ==> Spelled(ps[k]) && names[k] == ToString(ps[k], true)
    ensures forall k :: 0 <= k < |ps| ==> names[k] + IntToString(Octave(ps[k])) == Scientific(ps[k])
  {
  }

  /** Each letter name upper-cases to a single capital from `A` to `G`. */
  lemma UpperLetter(i: nat)
    requires i < |Tones|
    ensures |Upper(Tones[i])| == 1 && 'A' <= Upper(Tones[i])[0] <= 'G'
  {
    assert |Tones[i]| == 1 && 'a' <= Tones[i][0] <= 'g';
  }

  /** `helmholtz()`: case and marks carry the octave; C3 is `c`, C2 is `C`. */
  function Helmholtz(p: Coord): string
    requires Spelled(p)
  {
    var octave := Octave(p);
    var name := if octave < 3 then Upper(Name(p).value) else Lower(Name(p).value);
    var padchar := if octave < 3 then ',' else '\'';
    var padcount := if octave < 2 then 2 - octave else octave - 3;
    Padded(name + Text(Accidental(p)), padchar, padcount)
  }

  // ---------------------------------------------------------------------
  // Construction from key numbers
  // ---------------------------------------------------------------------

  /**
   * `Pitch.fromKey(key)`: semitones from A4, with the step count
   * `Math.round(7 * s / 12)`, which on integers is `floor((7 * s + 6) / 12)`.
   */
  function FromKey(key: int): (p: Coord)
    ensures Key(p, false) == key
  {
    var semitones := key - A4.semis + 8;
    Coord((7 * semitones + 6) / 12, semitones)
  }

  /** `Pitch.fromMIDI(m)`. */
  function FromMidi(m: int): (p: Coord)
    ensures Midi(p) == m
  {
    FromKey(m - 20)
  }

  // ---------------------------------------------------------------------
  // Properties of the readouts
  // ---------------------------------------------------------------------

  /**
   * A pitch written as octave `o`, letter `i` and accidental `v` reads back
   * those three parts.
   */
  lemma SpelledAs(p: Coord, o: nat, i: nat, v: int)
    requires i < 7 && -2 <= v <= 2
    requires p.steps + A4.steps == 7 * o + i
    requires p.semis + A4.semis == 12 * o + NaturalSemitones[i] + v
    ensures Spelled(p) && Octave(p) == o && LetterIndex(p) == Some(i) && AccidentalValue(p) == v
  {
    DivModUnique(p.steps + A4.steps, 7, o, i);
  }

  /** ... and is written as that letter, accidental sign and octave number. */
  lemma ScientificAs(p: Coord, o: nat, i: nat, v: int)
    requires i < 7 && -2 <= v <= 2
    requires p.steps + A4.steps == 7 * o + i
    requires p.semis + A4.semis == 12 * o + NaturalSemitones[i] + v
    ensures Spelled(p) && Scientific(p) == Upper(Tones[i]) + Accidentals[v + 2] + IntToString(o)
  {
    SpelledAs(p, o, i, v);
  }

  /** Coordinates of the test pitches spell as expected: A4 is the origin. */
  lemma ScientificA4()
    ensures Spelled(Coord(0, 0)) && Scientific(Coord(0, 0)) == "A4"
  {
    ScientificAs(Coord(0, 0), 4, 5, 0);
  }

  lemma ScientificCSharp3()
    ensures Spelled(Coord(-12, -20)) && Scientific(Coord(-12, -20)) == "C#3"
  {
    ScientificAs(Coord(-12, -20), 3, 0, 1);
  }

  lemma ScientificF5()
    ensures Spelled(Coord(5, 8)) && Scientific(Coord(5, 8)) == "F5"
  {
    ScientificAs(Coord(5, 8), 5, 3, 0);
    assert Upper(Tones[3]) == "F" && IntToString(5) == "5";
  }

  lemma ScientificAFlat4()
    ensures Spelled(Coord(0, -1)) && Scientific(Coord(0, -1)) == "Ab4"
  {
    ScientificAs(Coord(0, -1), 4, 5, -1);
  }

  /** Adding an octave (7 steps, 12 semitones) keeps letter and accidental and raises the octave. */
  lemma OctaveShift(p: Coord)
    requires Spelled(p)
    ensures var q := Add(p, Knowledge.Intervals[7].1);
      Spelled(q) && Name(q) == Name(p) && AccidentalValue(q) == AccidentalValue(p)
      && Accidental(q) == Accidental(p) && Octave(q) == Octave(p) + 1
      && Scientific(q) == ToString(p, true) + IntToString(Octave(p) + 1)
  {
    var q := Add(p, Knowledge.Intervals[7].1);
    OctaveStep(p, q);
    assert Name(q) == Name(p) && AccidentalValue(q) == AccidentalValue(p);
    assert Accidental(q) == Accidental(p);
  }

  /** One octave up lands on the same letter index, one octave number higher. */
  lemma OctaveStep(p: Coord, q: Coord)
    requires Spelled(p) && q == Coord(p.steps + 7, p.semis + 12)
    ensures LetterIndex(q) == LetterIndex(p) && Octave(q) == Octave(p) + 1
  {
    var t := p.steps + A4.steps;
    DivModUnique(t + 7, 7, t / 7 + 1, t % 7);
  }

  /** `chroma()` is the Euclidean residue of the semitones above C0. */
  lemma ChromaIsResidue(p: Coord)
    ensures Chroma(p) == (p.semis + A4.semis) % 12
  {
    var a := p.semis + A4.semis;
    if a < 0 {
      var b := -a;
      var q, r := b / 12, b % 12;
      if r != 0 {
        DivModUnique(a, 12, -q - 1, 12 - r);
      }
    }
  }

  /** `chroma()` is the letter's natural offset plus the accidental, mod 12. */
  lemma ChromaFromSpelling(p: Coord)
    requires Spelled(p)
    ensures Chroma(p) == (NaturalSemitones[LetterIndex(p).value] + AccidentalValue(p)) % 12
  {
    ChromaIsResidue(p);
    var a := p.semis + A4.semis;
    DivModUnique(a - 12 * Octave(p), 12, a / 12 - Octave(p), a % 12);
  }

  /** Spellings of the same key share the chroma (Dbb4 and C4, Bx and C#). */
  lemma EnharmonicChroma(p: Coord, q: Coord)
    requires Key(p, false) == Key(q, false)
    ensures Chroma(p) == Chroma(q)
  {
  }

  /** `fromKey` for each residue of the semitone count modulo 12. */
  lemma FromKeyResidue(r: int)
    requires 0 <= r < 12
    ensures var f := (7 * r + 6) / 12;
      0 <= f <= 6 && (r >= 3 ==> f >= 2)
      && -1 <= r + 9 - 12 * ((f + 5) / 7) - NaturalSemitones[(f + 5) % 7] <= 1
  {
    assert r == 0 || r == 1 || r == 2 || r == 3 || r == 4 || r == 5
      || r == 6 || r == 7 || r == 8 || r == 9 || r == 10 || r == 11;
  }

  /**
   * `fromKey` spells every key from C0 up, and never with a double
   * accidental: naturals, one sharp (C#, F#, G#) or one flat (Eb, Bb).
   */
  lemma FromKeySpelling(key: int)
    ensures key >= -8 ==> Spelled(FromKey(key))
    ensures Spelled(FromKey(key)) ==> -1 <= AccidentalValue(FromKey(key)) <= 1
  {
    var s := key - A4.semis + 8;
    var q, r := s / 12, s % 12;
    var f := (7 * r + 6) / 12;
    FromKeyResidue(r);
    DivModUnique(7 * s + 6, 12, 7 * q + f, (7 * r + 6) % 12);
    var t := 7 * q + f + 33;
    DivModUnique(t, 7, q + 4 + (f + 5) / 7, (f + 5) % 7);
  }

  /** Spellings of the coordinates `FromKeyExamples` produces. */
  lemma KeySpellingE2()
    ensures Spelled(Coord(-17, -29)) && Scientific(Coord(-17, -29)) == "E2"
  {
    ScientificAs(Coord(-17, -29), 2, 2, 0);
  }

  lemma KeySpellingGSharp6()
    ensures Spelled(Coord(13, 23)) && Scientific(Coord(13, 23)) == "G#6"
  {
    ScientificAs(Coord(13, 23), 6, 4, 1);
  }

  lemma KeySpellingCSharp4()
    ensures Spelled(Coord(-5, -8)) && Scientific(Coord(-5, -8)) == "C#4"
  {
    ScientificAs(Coord(-5, -8), 4, 0, 1);
  }

  /** The key and MIDI examples of the pitch tests: keys 20, 49, 72 and MIDI 61. */
  lemma FromKeyExamples()
    ensures FromKey(20) == Coord(-17, -29) && Scientific(FromKey(20)) == "E2"
    ensures FromKey(49) == Coord(0, 0) && Scientific(FromKey(49)) == "A4"
    ensures FromKey(72) == Coord(13, 23) && Scientific(FromKey(72)) == "G#6"
    ensures FromMidi(61) == Coord(-5, -8) && Scientific(FromMidi(61)) == "C#4"
  {
    assert FromKey(20) == Coord(-17, -29);
    assert FromKey(49) == Coord(0, 0);
    assert FromKey(72) == Coord(13, 23);
    assert FromMidi(61) == Coord(-5, -8);
    ScientificA4();
    KeySpellingE2();
    KeySpellingGSharp6();
    KeySpellingCSharp4();
  }

  /**
   * `helmholtz()` by octave: from octave 3 up a lower-case name with one
   * apostrophe per octave above 3; octave 2 upper-case with no mark (`pad`
   * ignores the count -1); below that one comma per octave under 2.
   */
  lemma HelmholtzByOctave(p: Coord)
    requires Spelled(p)
    ensures var o, sign := Octave(p), Text(Accidental(p));
      (o >= 3 ==> Helmholtz(p) == Lower(Name(p).value) + sign + Repeat('\'', o - 3))
      && (o == 2 ==> Helmholtz(p) == Upper(Name(p).value) + sign)
      && (o <= 1 ==> Helmholtz(p) == Upper(Name(p).value) + sign + Repeat(',', 2 - o))
  {
  }

  /** The Helmholtz examples of the pitch tests: A4 is a', C#5 is c#''. */
  lemma HelmholtzExamples()
    ensures Spelled(Coord(0, 0)) && Helmholtz(Coord(0, 0)) == "a'"
    ensures Spelled(Coord(2, 4)) && Helmholtz(Coord(2, 4)) == "c#''"
  {
    SpelledAs(Coord(0, 0), 4, 5, 0);
    HelmholtzByOctave(Coord(0, 0));
    SpelledAs(Coord(2, 4), 5, 0, 1);
    HelmholtzByOctave(Coord(2, 4));
  }

  // ---------------------------------------------------------------------
  // Enharmonic spellings
  // ---------------------------------------------------------------------

  /** The neighbour letters `enharmonics` tries, in order: m3, m2, m-2, m-3. */
  const EnharmonicOffsets: seq<Interval> := [MinorThird, MinorSecond, MinorSecondDown, MinorThirdDown]

  /** Largest accidental magnitude kept, plus one. */
  function EnharmonicLimit(oneAccidental: bool): int {
    if oneAccidental then 2 else 3
  }

  /** `pitch` moved by the sharps that make it sound on the key of `p`. */
  function Respell(p: Coord, pitch: Coord): Coord
    requires Spelled(pitch)
  {
    var acc := AccidentalValue(pitch);
    var diff := Key(p, false) - (Key(pitch, false) - acc);
    Add(pitch, Mul(Sharp, diff - acc))
  }

  /**
   * A neighbour one or two letters away, respelled, sounds as `p`, keeps its
   * own letter (not the letter of `p`) and carries the accidental the
   * filter of `enharmonics` tests.
   */
  lemma RespellNeighbour(p: Coord, d: int, pitch: Coord)
    requires d in {-2, -1, 1, 2} && pitch.steps == p.steps + d
    requires Spelled(pitch)
    ensures var q := Respell(p, pitch);
      Spelled(q) && q.steps == pitch.steps && Key(q, false) == Key(p, false)
      && LetterIndex(q) == LetterIndex(pitch) && LetterIndex(q) != LetterIndex(p)
      && AccidentalValue(q) == Key(p, false) - (Key(pitch, false) - AccidentalValue(pitch))
  {
    var t := p.steps + A4.steps;
    if LetterIndex(p).Some? {
      assert (t + d) % 7 != t % 7;
    }
  }

  /**
   * The filter of `enharmonics` over `offsets`: each candidate `p + offset`
   * is respelled by the accidental that makes it sound as `p`, and kept when
   * that accidental is within `limit`.  A candidate without a letter makes
   * `accidentalValue()` throw, which is `None` here.
   */
  function Respellings(p: Coord, offsets: seq<Interval>, limit: int): Option<seq<Coord>>
    decreases |offsets|
  {
    if offsets == [] then Some([])
    else
      var prefix := Respellings(p, offsets[..|offsets| - 1], limit);
      var pitch := PitchAt(p, offsets[|offsets| - 1]);
      if prefix.None? || !Spelled(pitch) then None
      else if Keeps(p, offsets[|offsets| - 1], limit) then Some(prefix.value + [Respell(p, pitch)])
      else prefix
  }

  /**
   * The filter's test for the candidate `off` away from `p`: it has a letter,
   * and the accidental that makes it sound as `p` lies strictly inside `limit`.
   */
  predicate Keeps(p: Coord, off: Interval, limit: int) {
    var pitch := PitchAt(p, off);
    Spelled(pitch)
    && var diff := Key(p, false) - (Key(pitch, false) - AccidentalValue(pitch));
    diff < limit && diff > -limit
  }

  /** The value `enharmonics(oneAccidental)` computes for a pitch at `p`. */
  function EnharmonicSpellings(p: Coord, oneAccidental: bool): Option<seq<Coord>> {
    Respellings(p, EnharmonicOffsets, EnharmonicLimit(oneAccidental))
  }

  /** Offsets of one or two letters, in strictly descending step order. */
  predicate NeighbourOffsets(offsets: seq<Interval>) {
    (forall k :: 0 <= k < |offsets| ==> offsets[k].coord.steps in {-2, -1, 1, 2})
    && (forall i, j :: 0 <= i < j < |offsets| ==> offsets[i].coord.steps > offsets[j].coord.steps)
  }

  /** `Respellings` fails exactly when some candidate has no letter. */
  lemma {:induction false} RespellingsFail(p: Coord, offsets: seq<Interval>, limit: int)
    ensures Respellings(p, offsets, limit).None? <==>
      exists k :: 0 <= k < |offsets| && !Spelled(PitchAt(p, offsets[k]))
  {
    if offsets != [] {
      var n := |offsets| - 1;
      RespellingsFail(p, offsets[..n], limit);
      assert forall k :: 0 <= k < n ==> offsets[..n][k] == offsets[k];
    }
  }

  /**
   * What `Respellings` keeps: at most one pitch per offset, each on the key
   * of `p`, with an accidental inside the limit, never on the letter of `p`.
   */
  lemma {:induction false} RespellingsSound(p: Coord, offsets: seq<Interval>, limit: int)
    requires NeighbourOffsets(offsets)
    requires Respellings(p, offsets, limit).Some?
    ensures var r := Respellings(p, offsets, limit).value;
      |r| <= |offsets|
      && (forall k :: 0 <= k < |r| ==>
            Spelled(r[k]) && Key(r[k], false) == Key(p, false)
            && -limit < AccidentalValue(r[k]) < limit
            && LetterIndex(r[k]) != LetterIndex(p))
  {
    if offsets != [] {
      var n := |offsets| - 1;
      var init := offsets[..n];
      assert NeighbourOffsets(init);
      RespellingsSound(p, init, limit);
      var pitch := PitchAt(p, offsets[n]);
      if Spelled(pitch) {
        RespellNeighbour(p, offsets[n].coord.steps, pitch);
      }
    }
  }

  /**
   * The kept pitches lie on the letters their offsets reach, in the order of
   * the offsets.
   */
  lemma {:induction false} RespellingsOrdered(p: Coord, offsets: seq<Interval>, limit: int)
    requires NeighbourOffsets(offsets)
    requires Respellings(p, offsets, limit).Some?
    ensures var r := Respellings(p, offsets, limit).value;
      (forall k :: 0 <= k < |r| ==> exists j :: 0 <= j < |offsets| && r[k].steps == p.steps + offsets[j].coord.steps)
      && (forall i, j :: 0 <= i < j < |r| ==> r[i].steps > r[j].steps)
  {
    if offsets != [] {
      var n := |offsets| - 1;
      var init := offsets[..n];
      assert NeighbourOffsets(init);
      RespellingsOrdered(p, init, limit);
      var prefix := Respellings(p, init, limit).value;
      var pitch := PitchAt(p, offsets[n]);
      assert forall k :: 0 <= k < n ==> init[k] == offsets[k];
      if Spelled(pitch) && Respellings(p, offsets, limit) != Some(prefix) {
        var r := prefix + [Respell(p, pitch)];
        assert r == Respellings(p, offsets, limit).value;
        assert r[|r| - 1].steps == p.steps + offsets[n].coord.steps;
        forall i, j | 0 <= i < j < |r|
          ensures r[i].steps > r[j].steps
        {
          if j == |r| - 1 {
            var m :| 0 <= m < |init| && r[i].steps == p.steps + init[m].coord.steps;
          }
        }
      }
    }
  }

  /**
   * The filter keeps exactly the candidates inside the limit: each offset's
   * respelled candidate is in the result precisely when `Keeps` holds for it.
   */
  lemma {:induction false} RespellingsComplete(p: Coord, offsets: seq<Interval>, limit: int)
    requires NeighbourOffsets(offsets)
    requires Respellings(p, offsets, limit).Some?
    ensures var r := Respellings(p, offsets, limit).value;
      forall k :: 0 <= k < |offsets| ==>
        Spelled(PitchAt(p, offsets[k]))
        && (Keeps(p, offsets[k], limit) <==> Respell(p, PitchAt(p, offsets[k])) in r)
  {
    RespellingsFail(p, offsets, limit);
    if offsets != [] {
      var n := |offsets| - 1;
      var init := offsets[..n];
      assert NeighbourOffsets(init);
      RespellingsComplete(p, init, limit);
      forall k | 0 <= k < |offsets|
        ensures Keeps(p, offsets[k], limit) <==> Respell(p, PitchAt(p, offsets[k])) in Respellings(p, offsets, limit).value
      {
        if k < n {
          assert init[k] == offsets[k];
        }
        RespellingsCompleteAt(p, offsets, limit, k);
      }
    }
  }

  /** The inductive step of `RespellingsComplete` for the candidate at index `k`. */
  lemma RespellingsCompleteAt(p: Coord, offsets: seq<Interval>, limit: int, k: nat)
    requires NeighbourOffsets(offsets) && k < |offsets|
    requires Respellings(p, offsets, limit).Some?
    requires var n := |offsets| - 1;
      Respellings(p, offsets[..n], limit).Some?
      && (k < n ==>
            Spelled(PitchAt(p, offsets[k]))
            && (Keeps(p, offsets[k], limit) <==> Respell(p, PitchAt(p, offsets[k])) in Respellings(p, offsets[..n], limit).value))
    ensures Spelled(PitchAt(p, offsets[k]))
    ensures Keeps(p, offsets[k], limit) <==> Respell(p, PitchAt(p, offsets[k])) in Respellings(p, offsets, limit).value
  {
    var n := |offsets| - 1;
    var prefix := Respellings(p, offsets[..n], limit).value;
    var last := Respell(p, PitchAt(p, offsets[n]));
    RespellingsStep(p, offsets, n, limit);
    assert offsets[..n + 1] == offsets;
    var r := Respellings(p, offsets, limit).value;
    assert r == if Keeps(p, offsets[n], limit) then prefix + [last] else prefix;
    var x := Respell(p, PitchAt(p, offsets[k]));
    if k < n {
      RespellSteps(p, PitchAt(p, offsets[k]));
      RespellSteps(p, PitchAt(p, offsets[n]));
      assert x != last;
      assert x in r <==> x in prefix;
    } else {
      LastNotRespelledBefore(p, offsets, limit);
      assert x in r <==> Keeps(p, offsets[n], limit);
    }
  }

  /** Respelling changes only the accidental: the letter step stays. */
  lemma RespellSteps(p: Coord, pitch: Coord)
    requires Spelled(pitch)
    ensures Respell(p, pitch).steps == pitch.steps
  {
  }

  /** The last candidate's respelling is on a letter none of the earlier kept pitches use. */
  lemma LastNotRespelledBefore(p: Coord, offsets: seq<Interval>, limit: int)
    requires NeighbourOffsets(offsets) && |offsets| > 0
    requires Respellings(p, offsets[..|offsets| - 1], limit).Some?
    requires Spelled(PitchAt(p, offsets[|offsets| - 1]))
    ensures Respell(p, PitchAt(p, offsets[|offsets| - 1])) !in Respellings(p, offsets[..|offsets| - 1], limit).value
  {
    var n := |offsets| - 1;
    var init := offsets[..n];
    assert NeighbourOffsets(init);
    RespellingsOrdered(p, init, limit);
    var prefix := Respellings(p, init, limit).value;
    var last := Respell(p, PitchAt(p, offsets[n]));
    RespellSteps(p, PitchAt(p, offsets[n]));
  }

  /**
   * `enharmonics` keeps exactly the neighbours whose respelling needs fewer
   * accidentals than the limit.
   */
  lemma EnharmonicsComplete(p: Coord, oneAccidental: bool)
    requires EnharmonicSpellings(p, oneAccidental).Some?
    ensures var r, limit := EnharmonicSpellings(p, oneAccidental).value, EnharmonicLimit(oneAccidental);
      forall k :: 0 <= k < 4 ==>
        Spelled(PitchAt(p, EnharmonicOffsets[k]))
        && (Keeps(p, EnharmonicOffsets[k], limit) <==> Respell(p, PitchAt(p, EnharmonicOffsets[k])) in r)
  {
    EnharmonicOffsetsValue();
    RespellingsComplete(p, EnharmonicOffsets, EnharmonicLimit(oneAccidental));
  }

  /** `enharmonics` keeps at most 4 spellings of the same key, none on the pitch's own letter. */
  lemma EnharmonicsSound(p: Coord, oneAccidental: bool)
    ensures var r := EnharmonicSpellings(p, oneAccidental);
      (r.None? <==> exists k :: 0 <= k < 4 && !Spelled(PitchAt(p, EnharmonicOffsets[k])))
      && (r.Some? ==>
        |r.value| <= 4
        && (forall k :: 0 <= k < |r.value| ==>
              Spelled(r.value[k]) && Key(r.value[k], false) == Key(p, false)
              && -EnharmonicLimit(oneAccidental) < AccidentalValue(r.value[k]) < EnharmonicLimit(oneAccidental)
              && LetterIndex(r.value[k]) != LetterIndex(p))
        && (forall i, j :: 0 <= i < j < |r.value| ==> r.value[i].steps > r.value[j].steps))
  {
    RespellingsFail(p, EnharmonicOffsets, EnharmonicLimit(oneAccidental));
    if EnharmonicSpellings(p, oneAccidental).Some? {
      RespellingsSound(p, EnharmonicOffsets, EnharmonicLimit(oneAccidental));
      RespellingsOrdered(p, EnharmonicOffsets, EnharmonicLimit(oneAccidental));
    }
  }

  /** The four offsets as coordinates: +2/+3, +1/+1, -1/-1, -2/-3. */
  lemma EnharmonicOffsetsValue()
    ensures EnharmonicOffsets == [Interval(Coord(2, 3)), Interval(Coord(1, 1)), Interval(Coord(-1, -1)), Interval(Coord(-2, -3))]
  {
    IntervalsTable();
  }

  /** `Respellings` over one more offset: the earlier ones, then the new candidate. */
  lemma RespellingsSnoc(p: Coord, offsets: seq<Interval>, off: Interval, limit: int)
    ensures var prefix, pitch := Respellings(p, offsets, limit), PitchAt(p, off);
      Respellings(p, offsets + [off], limit) ==
        if prefix.None? || !Spelled(pitch) then None
        else if -limit < Key(p, false) - (Key(pitch, false) - AccidentalValue(pitch)) < limit
        then Some(prefix.value + [Respell(p, pitch)])
        else prefix
  {
    assert (offsets + [off])[..|offsets|] == offsets;
  }

  /** `Respellings` over the first `i + 1` offsets, from the first `i`. */
  lemma RespellingsStep(p: Coord, offsets: seq<Interval>, i: nat, limit: int)
    requires i < |offsets|
    ensures var prefix, pitch := Respellings(p, offsets[..i], limit), PitchAt(p, offsets[i]);
      Respellings(p, offsets[..i + 1], limit) ==
        if prefix.None? || !Spelled(pitch) then None
        else if -limit < Key(p, false) - (Key(pitch, false) - AccidentalValue(pitch)) < limit
        then Some(prefix.value + [Respell(p, pitch)])
        else prefix
  {
    assert offsets[..i + 1][..i] == offsets[..i];
  }

  /** A candidate on the key of `p` within the limit is appended. */
  lemma RespellingsKeep(p: Coord, offsets: seq<Interval>, off: Interval, limit: int, prefix: seq<Coord>, acc: int)
    requires Respellings(p, offsets, limit) == Some(prefix)
    requires Spelled(PitchAt(p, off)) && AccidentalValue(PitchAt(p, off)) == acc
    requires -limit < Key(p, false) - (Key(PitchAt(p, off), false) - acc) < limit
    ensures Respellings(p, offsets + [off], limit) == Some(prefix + [Respell(p, PitchAt(p, off))])
  {
    RespellingsSnoc(p, offsets, off, limit);
  }

  /** A candidate outside the limit is dropped. */
  lemma RespellingsDrop(p: Coord, offsets: seq<Interval>, off: Interval, limit: int, prefix: seq<Coord>, acc: int)
    requires Respellings(p, offsets, limit) == Some(prefix)
    requires Spelled(PitchAt(p, off)) && AccidentalValue(PitchAt(p, off)) == acc
    requires !(-limit < Key(p, false) - (Key(PitchAt(p, off), false) - acc) < limit)
    ensures Respellings(p, offsets + [off], limit) == Some(prefix)
  {
    RespellingsSnoc(p, offsets, off, limit);
  }

  /** A spelled pitch named by letter `i` and accidental `v` sits at those parts of its octave. */
  lemma SpellingParts(p: Coord, i: nat, v: int)
    requires i < 7 && -2 <= v <= 2
    requires Spelled(p) && Name(p) == Some(Tones[i]) && Accidental(p) == Some(Accidentals[v + 2])
    ensures LetterIndex(p) == Some(i) && AccidentalValue(p) == v
    ensures p.steps + A4.steps == 7 * Octave(p) + i
    ensures p.semis + A4.semis == 12 * Octave(p) + NaturalSemitones[i] + v
  {
    TonesTable();
    AccidentalsTable();
  }

  /**
   * A natural C above octave 0 is enharmonic with the D double flat above
   * it and the B sharp below it, or with the B sharp alone when only one
   * accidental is allowed (the E flat and A neighbours are too far).
   */
  lemma EnharmonicsOfC(p: Coord, oneAccidental: bool)
    requires Spelled(p) && Name(p) == Some("c") && Accidental(p) == Some("") && Octave(p) >= 1
    ensures EnharmonicSpellings(p, oneAccidental) ==
      if oneAccidental then Some([Coord(p.steps - 1, p.semis)])
      else Some([Coord(p.steps + 1, p.semis), Coord(p.steps - 1, p.semis)])
  {
    assert Tones[0] == "c" && Accidentals[2] == "";
    SpellingParts(p, 0, 0);
    var o := Octave(p);
    var limit := EnharmonicLimit(oneAccidental);
    var m3, m2, m2down, m3down := Interval(Coord(2, 3)), Interval(Coord(1, 1)), Interval(Coord(-1, -1)), Interval(Coord(-2, -3));
    SpelledAs(PitchAt(p, m3), o, 2, -1);
    SpelledAs(PitchAt(p, m2), o, 1, -1);
    SpelledAs(PitchAt(p, m2down), o - 1, 6, 0);
    SpelledAs(PitchAt(p, m3down), o - 1, 5, 0);
    var dbb, bsharp := Coord(p.steps + 1, p.semis), Coord(p.steps - 1, p.semis);
    assert Respell(p, PitchAt(p, m2)) == dbb;
    assert Respell(p, PitchAt(p, m2down)) == bsharp;

    var o0: seq<Interval> := [];
    RespellingsDrop(p, o0, m3, limit, [], -1);
    var o1 := o0 + [m3];
    var upper: seq<Coord> := if oneAccidental then [] else [dbb];
    if oneAccidental {
      RespellingsDrop(p, o1, m2, limit, [], -1);
    } else {
      RespellingsKeep(p, o1, m2, limit, [], -1);
      assert [] + [dbb] == upper;
    }
    var o2 := o1 + [m2];
    RespellingsKeep(p, o2, m2down, limit, upper, 0);
    var o3 := o2 + [m2down];
    RespellingsDrop(p, o3, m3down, limit, upper + [bsharp], 0);
    EnharmonicOffsetsValue();
    assert EnharmonicOffsets == o3 + [m3down];
    if oneAccidental {
      assert upper + [bsharp] == [bsharp];
    } else {
      assert upper + [bsharp] == [dbb, bsharp];
    }
  }

  /**
   * An F flat is enharmonic with the E natural below it and the D double
   * sharp below that, or with the E alone when only one accidental is
   * allowed (the A and G double flats are too far).
   */
  lemma EnharmonicsOfFFlat(p: Coord, oneAccidental: bool)
    requires Spelled(p) && Name(p) == Some("f") && Accidental(p) == Some("b")
    ensures EnharmonicSpellings(p, oneAccidental) ==
      if oneAccidental then Some([Coord(p.steps - 1, p.semis)])
      else Some([Coord(p.steps - 1, p.semis), Coord(p.steps - 2, p.semis)])
  {
    assert Tones[3] == "f" && Accidentals[1] == "b";
    SpellingParts(p, 3, -1);
    var o: nat := Octave(p);
    var limit := EnharmonicLimit(oneAccidental);
    var m3, m2, m2down, m3down := Interval(Coord(2, 3)), Interval(Coord(1, 1)), Interval(Coord(-1, -1)), Interval(Coord(-2, -3));
    SpelledAs(PitchAt(p, m3), o, 5, -2);
    SpelledAs(PitchAt(p, m2), o, 4, -2);
    SpelledAs(PitchAt(p, m2down), o, 2, -1);
    SpelledAs(PitchAt(p, m3down), o, 1, -1);
    var e, dx := Coord(p.steps - 1, p.semis), Coord(p.steps - 2, p.semis);
    assert Respell(p, PitchAt(p, m2down)) == e;
    assert Respell(p, PitchAt(p, m3down)) == dx;

    var o0: seq<Interval> := [];
    RespellingsDrop(p, o0, m3, limit, [], -2);
    var o1 := o0 + [m3];
    RespellingsDrop(p, o1, m2, limit, [], -2);
    var o2 := o1 + [m2];
    RespellingsKeep(p, o2, m2down, limit, [], -1);
    var o3 := o2 + [m2down];
    if oneAccidental {
      RespellingsDrop(p, o3, m3down, limit, [] + [e], -1);
    } else {
      RespellingsKeep(p, o3, m3down, limit, [] + [e], -1);
    }
    EnharmonicOffsetsValue();
    assert EnharmonicOffsets == o3 + [m3down];
    assert [] + [e] == [e];
    assert [e] + [dx] == [e, dx];
  }

  /**
   * A C flat above octave 0 is enharmonic with the B natural below it and
   * the A double sharp below that, or with the B alone when only one
   * accidental is allowed.
   */
  lemma EnharmonicsOfCFlat(p: Coord, oneAccidental: bool)
    requires Spelled(p) && Name(p) == Some("c") && Accidental(p) == Some("b") && Octave(p) >= 1
    ensures EnharmonicSpellings(p, oneAccidental) ==
      if oneAccidental then Some([Coord(p.steps - 1, p.semis)])
      else Some([Coord(p.steps - 1, p.semis), Coord(p.steps - 2, p.semis)])
  {
    assert Tones[0] == "c" && Accidentals[1] == "b";
    SpellingParts(p, 0, -1);
    var o := Octave(p);
    var limit := EnharmonicLimit(oneAccidental);
    var m3, m2, m2down, m3down := Interval(Coord(2, 3)), Interval(Coord(1, 1)), Interval(Coord(-1, -1)), Interval(Coord(-2, -3));
    SpelledAs(PitchAt(p, m3), o, 2, -2);
    SpelledAs(PitchAt(p, m2), o, 1, -2);
    SpelledAs(PitchAt(p, m2down), o - 1, 6, -1);
    SpelledAs(PitchAt(p, m3down), o - 1, 5, -1);
    var b, ax := Coord(p.steps - 1, p.semis), Coord(p.steps - 2, p.semis);
    assert Respell(p, PitchAt(p, m2down)) == b;
    assert Respell(p, PitchAt(p, m3down)) == ax;

    var o0: seq<Interval> := [];
    RespellingsDrop(p, o0, m3, limit, [], -2);
    var o1 := o0 + [m3];
    RespellingsDrop(p, o1, m2, limit, [], -2);
    var o2 := o1 + [m2];
    RespellingsKeep(p, o2, m2down, limit, [], -1);
    var o3 := o2 + [m2down];
    if oneAccidental {
      RespellingsDrop(p, o3, m3down, limit, [] + [b], -1);
    } else {
      RespellingsKeep(p, o3, m3down, limit, [] + [b], -1);
    }
    EnharmonicOffsetsValue();
    assert EnharmonicOffsets == o3 + [m3down];
    assert [] + [b] == [b];
    assert [b] + [ax] == [b, ax];
  }

  /** C0 has no enharmonics: the B below it has no letter, and `accidentalValue()` throws. */
  lemma EnharmonicsOfC0(p: Coord, oneAccidental: bool)
    requires Spelled(p) && Name(p) == Some("c") && Octave(p) == 0
    ensures EnharmonicSpellings(p, oneAccidental) == None
  {
    EnharmonicOffsetsValue();
    RespellingsFail(p, EnharmonicOffsets, EnharmonicLimit(oneAccidental));
    assert !Spelled(PitchAt(p, EnharmonicOffsets[2]));
  }

  // ---------------------------------------------------------------------
  // Scale degree and solfege
  // ---------------------------------------------------------------------

  /** A scale: its tonic and its template of intervals from the tonic. */
  datatype Scale = Scale(tonic: Coord, template: seq<Interval>)

  /**
   * The `reduce` of `scaleDegree` over `template`: each entry equal to
   * `target` replaces the running index by its 1-based position.
   */
  function DegreeFold(template: seq<Interval>, target: Coord): nat
    decreases |template|
  {
    if template == [] then 0
    else if template[|template| - 1].coord == target then |template|
    else DegreeFold(template[..|template| - 1], target)
  }

  /** The fold means: 0 when nothing matches, otherwise the position of the last match. */
  lemma {:induction false} DegreeFoldLastMatch(template: seq<Interval>, target: Coord)
    ensures var d := DegreeFold(template, target);
      (d == 0 <==> forall k :: 0 <= k < |template| ==> template[k].coord != target)
      && (d > 0 ==> d <= |template| && template[d - 1].coord == target
                    && forall k :: d <= k < |template| ==> template[k].coord != target)
  {
    if template != [] {
      var n := |template| - 1;
      DegreeFoldLastMatch(template[..n], target);
      assert forall k :: 0 <= k < n ==> template[..n][k] == template[k];
    }
  }

  /**
   * The interval `scaleDegree` looks up: from the tonic to `p`, inverted when
   * it points down or is a whole number of octaves, then made simple.
   */
  function DegreeTarget(p: Coord, scale: Scale, lib: IntervalLib): Coord {
    var inter := Between(scale.tonic, p);
    var inter' := if lib.direction(inter) == Down || (inter.coord.semis == 0 && inter.coord.steps != 0)
      then lib.invert(inter) else inter;
    lib.simple(inter', true).coord
  }

  /** `scaleDegree(scale)`. */
  function ScaleDegree(p: Coord, scale: Scale, lib: IntervalLib): (d: nat)
    ensures d <= |scale.template|
  {
    DegreeFoldLastMatch(scale.template, DegreeTarget(p, scale, lib));
    DegreeFold(scale.template, DegreeTarget(p, scale, lib))
  }

  /** `scaleDegree` is 0 exactly when no template entry matches; otherwise the last match. */
  lemma ScaleDegreeMeaning(p: Coord, scale: Scale, lib: IntervalLib)
    ensures var d, target := ScaleDegree(p, scale, lib), DegreeTarget(p, scale, lib);
      (d == 0 <==> forall k :: 0 <= k < |scale.template| ==> scale.template[k].coord != target)
      && (d > 0 ==> scale.template[d - 1].coord == target
                    && forall k :: d <= k < |scale.template| ==> scale.template[k].coord != target)
  {
    DegreeFoldLastMatch(scale.template, DegreeTarget(p, scale, lib));
  }

  /**
   * The octave count of `solfege(scale, true)` from the white-key
   * difference: `Math.floor(d / 7)` when `d / 7 >= 0`, else
   * `-Math.ceil(-d / 7)`.  Both are the floor of `d / 7`.
   */
  function OctaveCount(d: int): (count: int)
    ensures 7 * count <= d < 7 * count + 7
  {
    if d >= 0 then d / 7
    else
      var c := (-d + 6) / 7;
      DivModUnique(-d + 6, 7, c, (-d + 6) % 7);
      -c
  }

  /** The syllable `solfege` looks up, undefined where the table has no entry. */
  function Syllable(p: Coord, scale: Scale, lib: IntervalLib): Option<string> {
    var inter := Between(scale.tonic, p);
    var inter' := if lib.direction(inter) == Down then lib.invert(inter) else inter;
    Lookup(IntervalSolfege, lib.toString(lib.simple(inter', true)))
  }

  /**
   * The octave marks of `solfege(scale, true)`: `pad(solfege, stroke,
   * Math.abs(count))`, apostrophes for a count >= 0, commas below.
   */
  function OctaveMarked(solfege: Option<string>, count: int): Option<string> {
    var stroke := if count >= 0 then '\'' else ',';
    var n := if count >= 0 then count else -count;
    if n > 0 then Some(Padded(Text(solfege), stroke, n)) else solfege
  }

  /** `solfege(scale, showOctaves)`. */
  function Solfege(p: Coord, scale: Scale, lib: IntervalLib, showOctaves: bool): Option<string> {
    var solfege := Syllable(p, scale, lib);
    if showOctaves then OctaveMarked(solfege, OctaveCount(Key(p, true) - Key(scale.tonic, true)))
    else solfege
  }

  /** Both branches of the octave count are the floor of `d / 7`. */
  lemma OctaveCountIsFloor(d: int)
    ensures OctaveCount(d) == d / 7
  {
    DivModUnique(d, 7, OctaveCount(d), d - 7 * OctaveCount(d));
  }

  /**
   * With octaves shown, the syllable carries one apostrophe per octave above
   * the tonic or one comma per octave below it; a pitch within the tonic's
   * octave gets the bare syllable, and a table gap stays undefined there.
   */
  lemma OctaveMarks(solfege: Option<string>, d: int)
    ensures var count, marked := d / 7, OctaveMarked(solfege, OctaveCount(d));
      (count == 0 ==> marked == solfege)
      && (count > 0 ==> marked == Some(Text(solfege) + Repeat('\'', count)))
      && (count < 0 ==> marked == Some(Text(solfege) + Repeat(',', -count)))
  {
    OctaveCountIsFloor(d);
  }

  /** `OctaveMarks` for `solfege` itself, with the white-key difference to the tonic. */
  lemma SolfegeOctaveMarks(p: Coord, scale: Scale, lib: IntervalLib)
    ensures var count, syl := (Key(p, true) - Key(scale.tonic, true)) / 7, Syllable(p, scale, lib);
      (count == 0 ==> Solfege(p, scale, lib, true) == syl)
      && (count > 0 ==> Solfege(p, scale, lib, true) == Some(Text(syl) + Repeat('\'', count)))
      && (count < 0 ==> Solfege(p, scale, lib, true) == Some(Text(syl) + Repeat(',', -count)))
  {
    OctaveMarks(Syllable(p, scale, lib), Key(p, true) - Key(scale.tonic, true));
  }

  // ---------------------------------------------------------------------
  // The Pitch object
  // ---------------------------------------------------------------------

  class Pitch {
    var coord: Coord

    constructor(coord: Coord)
      ensures this.coord == coord
    {
      this.coord := coord;
    }

    /** `transpose(i)`: moves this pitch to where `interval(i)` points and returns it. */
    method Transpose(i: Interval) returns (self: Pitch)
      modifies this
      ensures self == this
      ensures coord == PitchAt(old(coord), i)
      ensures Between(old(coord), coord) == i
    {
      coord := Add(coord, i.coord);
      self := this;
    }

    /**
     * `enharmonics(oneAccidental)`: fresh pitches, one per kept candidate,
     * at the coordinates `EnharmonicSpellings` gives; this pitch is not
     * changed.  `None` where the source throws.
     */
    method Enharmonics(oneAccidental: bool) returns (r: Option<seq<Pitch>>)
      ensures r.None? <==> EnharmonicSpellings(coord, oneAccidental).None?
      ensures r.Some? ==> |r.value| == |EnharmonicSpellings(coord, oneAccidental).value|
      ensures r.Some? ==> forall k :: 0 <= k < |r.value| ==>
        fresh(r.value[k]) && r.value[k].coord == EnharmonicSpellings(coord, oneAccidental).value[k]
    {
      r := RespelledPitches(coord, EnharmonicOffsets, EnharmonicLimit(oneAccidental));
    }
  }

  /**
   * The `map` and `filter` of `enharmonics`: a fresh pitch per offset, moved
   * onto the key of `p` and kept when its accidental is within `limit`.
   */
  method RespelledPitches(p: Coord, offsets: seq<Interval>, limit: int) returns (r: Option<seq<Pitch>>)
    ensures r.None? <==> Respellings(p, offsets, limit).None?
    ensures r.Some? ==> |r.value| == |Respellings(p, offsets, limit).value|
    ensures r.Some? ==> forall k :: 0 <= k < |r.value| ==>
      fresh(r.value[k]) && r.value[k].coord == Respellings(p, offsets, limit).value[k]
  {
    var key := Key(p, false);
    var out: seq<Pitch> := [];
    ghost var kept: seq<Coord> := [];
    var i := 0;
    while i < |offsets|
      invariant 0 <= i <= |offsets|
      invariant Respellings(p, offsets[..i], limit) == Some(kept)
      invariant |out| == |kept|
      invariant forall k :: 0 <= k < |out| ==> fresh(out[k]) && out[k].coord == kept[k]
    {
      var pitch := new Pitch(PitchAt(p, offsets[i]));
      RespellingsStep(p, offsets, i, limit);
      if !Spelled(pitch.coord) {
        RespellingsFailed(p, offsets, i + 1, limit);
        return None;
      }
      var acc := AccidentalValue(pitch.coord);
      var diff := key - (Key(pitch.coord, false) - acc);
      if diff < limit && diff > -limit {
        pitch.coord := Add(pitch.coord, Mul(Sharp, diff - acc));
        out := out + [pitch];
        kept := kept + [pitch.coord];
      }
      i := i + 1;
    }
    assert offsets[..i] == offsets;
    r := Some(out);
  }

  /** Once a prefix of the offsets fails, so does the whole list. */
  lemma {:induction false} RespellingsFailed(p: Coord, offsets: seq<Interval>, n: nat, limit: int)
    requires n <= |offsets|
    requires Respellings(p, offsets[..n], limit).None?
    ensures Respellings(p, offsets, limit).None?
    decreases |offsets| - n
  {
    if n < |offsets| {
      assert offsets[..n + 1][..n] == offsets[..n];
      RespellingsFailed(p, offsets, n + 1, limit);
    } else {
      assert offsets[..n] == offsets;
    }
  }
}
