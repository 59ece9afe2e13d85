/**
 * The constant tables of lib/knowledge.js that the pitch and chord code
 * reads, with the facts about them that the rest of the model relies on.
 */
module Knowledge {
  import opened Coords
  import opened Wrappers

  /** The coordinate of A4 counted from C0; pitch coordinates are relative to A4. */
  const A4 := Coord(33, 57)

  /** One chromatic semitone, no diatonic step. */
  const Sharp := Coord(0, 1)

  /** Letter names, indexed by the step count from C modulo 7. */
  const Tones: seq<string> := ["c", "d", "e", "f", "g", "a", "b"]

  /** Semitones above C of each natural letter, in the order of `Tones`. */
  const NaturalSemitones: seq<int> := [0, 2, 4, 5, 7, 9, 11]

  /** Accidental signs indexed by accidental value + 2. */
  const Accidentals: seq<string> := ["bb", "b", "", "#", "x"]

  /** Reference interval sizes (perfect or minor), in source order. */
  const Intervals: seq<(string, Coord)> := [
    ("unison", Coord(0, 0)), ("second", Coord(1, 1)), ("third", Coord(2, 3)),
    ("fourth", Coord(3, 5)), ("fifth", Coord(4, 7)), ("sixth", Coord(5, 8)),
    ("seventh", Coord(6, 10)), ("octave", Coord(7, 12))]

  /** Names of the diatonic classes, indexed by step count. */
  const IntervalsIndex: seq<string> := [
    "unison", "second", "third", "fourth", "fifth", "sixth", "seventh",
    "octave", "ninth", "tenth", "eleventh", "twelfth", "thirteenth",
    "fourteenth", "fifteenth"]

  /** Quality symbols of the perfect classes, from doubly diminished up. */
  const PerfectAlterations: seq<string> := ["dd", "d", "P", "A", "AA"]

  /** Quality symbols of the minor/major classes, from doubly diminished up. */
  const MinorAlterations: seq<string> := ["dd", "d", "m", "M", "A", "AA"]

  /** Conventional short symbol of each chord quality name, in source order. */
  const ChordShort: seq<(string, string)> := [
    ("major", ""), ("minor", "m"), ("augmented", "+"), ("diminished", "o"),
    ("dominant", "7"), ("major-seventh", "M7"), ("minor-seventh", "m7"),
    ("diminished-seventh", "o7"), ("augmented-seventh", "+7"),
    ("half-diminished", "ø"), ("major-minor", "mM"), ("major-sixth", "6"),
    ("minor-sixth", "m6"), ("dominant-ninth", "9"), ("major-ninth", "M9"),
    ("minor-ninth", "m9"), ("dominant-11th", "11"), ("major-11th", "M11"),
    ("minor-11th", "m11"), ("dominant-13th", "13"), ("major-13th", "M13"),
    ("minor-13th", "m13"), ("suspended-second", "sus2"),
    ("suspended-fourth", "sus4"), ("Neapolitan", "N"), ("power", "5"),
    ("Tristan", "tristan")]

  /** Interval number of each step word accepted by `Chord.get`, in source order. */
  const StepNumber: seq<(string, int)> := [
    ("unison", 1), ("first", 1), ("second", 2), ("third", 3), ("fourth", 4),
    ("fifth", 5), ("sixth", 6), ("seventh", 7), ("octave", 8), ("ninth", 9),
    ("eleventh", 11), ("thirteenth", 13)]

  /** Chromatic solfege syllable of each simple interval name, in source order. */
  const IntervalSolfege: seq<(string, string)> := [
    ("dd1", "daw"), ("d1", "de"), ("P1", "do"), ("A1", "di"), ("AA1", "dai"),
    ("d2", "raw"), ("m2", "ra"), ("M2", "re"), ("A2", "ri"), ("AA2", "rai"),
    ("d3", "maw"), ("m3", "me"), ("M3", "mi"), ("A3", "mai"),
    ("dd4", "faw"), ("d4", "fe"), ("P4", "fa"), ("A4", "fi"), ("AA4", "fai"),
    ("dd5", "saw"), ("d5", "se"), ("P5", "so"), ("A5", "si"), ("AA5", "sai"),
    ("d6", "law"), ("m6", "le"), ("M6", "la"), ("A6", "li"), ("AA6", "lai"),
    ("d7", "taw"), ("m7", "te"), ("M7", "ti"), ("A7", "tai"),
    ("dd8", "daw"), ("d8", "de"), ("P8", "do"), ("A8", "di"), ("AA8", "dai")]

  /** Property lookup `table[key]` on an object literal; absent keys give `None`. */
  function Lookup<V>(table: seq<(string, V)>, key: string): Option<V> {
    if table == [] then None
    else if table[0].0 == key then Some(table[0].1)
    else Lookup(table[1..], key)
  }

  /** A lookup finds nothing exactly when no row has the key, and otherwise a row's value. */
  lemma {:induction false} LookupMeaning<V>(table: seq<(string, V)>, key: string)
    ensures Lookup(table, key).None? <==> forall i :: 0 <= i < |table| ==> table[i].0 != key
    ensures Lookup(table, key).Some? ==> exists i :: 0 <= i < |table| && table[i] == (key, Lookup(table, key).value)
  {
    if table != [] && table[0].0 != key {
      LookupMeaning(table[1..], key);
      if Lookup(table, key).Some? {
        var i :| 0 <= i < |table[1..]| && table[1..][i] == (key, Lookup(table, key).value);
        assert table[i + 1] == table[1..][i];
      }
      assert forall i :: 0 < i < |table| ==> table[i] == table[1..][i - 1];
    }
  }

  /** A key that occurs first at index `i` looks up the value stored there. */
  lemma {:induction false} LookupAt<V>(table: seq<(string, V)>, i: int)
    requires 0 <= i < |table|
    requires forall j :: 0 <= j < i ==> table[j].0 != table[i].0
    ensures Lookup(table, table[i].0) == Some(table[i].1)
  {
    if i > 0 {
      LookupAt(table[1..], i - 1);
    }
  }

  lemma TonesTable()
    ensures |Tones| == |NaturalSemitones| == 7
    ensures forall i, j :: 0 <= i < j < 7 ==> Tones[i] != Tones[j]
    ensures forall i, j :: 0 <= i < j < 7 ==> 0 <= NaturalSemitones[i] < NaturalSemitones[j] < 12
  {
  }

  /** Five signs, double flat to double sharp, with the empty natural sign in the middle. */
  lemma AccidentalsTable()
    ensures |Accidentals| == 5
    ensures Accidentals[0] == "bb" && Accidentals[2] == "" && Accidentals[4] == "x"
    ensures forall i, j :: 0 <= i < j < 5 ==> Accidentals[i] != Accidentals[j]
  {
  }

  /**
   * The reference table lists unison to octave; entry `k` spans `k`
   * diatonic steps, its name is the `k`-th class name, and the semitone
   * sizes strictly increase.
   */
  lemma IntervalsTable()
    ensures |Intervals| == 8
    ensures forall k :: 0 <= k < 8 ==> Intervals[k].1.steps == k && Intervals[k].0 == IntervalsIndex[k]
    ensures forall i, j :: 0 <= i < j < 8 ==> Intervals[i].1.semis < Intervals[j].1.semis
    ensures Intervals[7].1 == Coord(7, 12)
  {
  }

  /**
   * Perfect classes have five qualities centred on `P`; minor/major classes
   * have six with `m` and `M` in the middle; both share the diminished and
   * augmented ends.
   */
  lemma AlterationsTable()
    ensures |PerfectAlterations| == 5 && PerfectAlterations[2] == "P"
    ensures |MinorAlterations| == 6 && MinorAlterations[2] == "m" && MinorAlterations[3] == "M"
    ensures PerfectAlterations[..2] == MinorAlterations[..2]
    ensures PerfectAlterations[3..] == MinorAlterations[4..]
  {
  }

  /** The six intervals the table's comment names (dd2, dd3, AA3, dd6, dd7, AA7) have no syllable. */
  lemma SolfegeGap(name: string)
    requires name in ["dd2", "dd3", "AA3", "dd6", "dd7", "AA7"]
    ensures Lookup(IntervalSolfege, name) == None
  {
    if name[0] == 'd' {
      SolfegeLacksDoublyDiminished(name[2]);
      assert name == ['d', 'd', name[2]];
    } else {
      SolfegeLacksDoublyAugmented(name[2]);
      assert name == ['A', 'A', name[2]];
    }
    LookupMeaning(IntervalSolfege, name);
  }

  lemma SolfegeLacksDoublyDiminished(number: char)
    requires number in "2367"
    ensures forall i :: 0 <= i < |IntervalSolfege| ==> IntervalSolfege[i].0 != ['d', 'd', number]
  {
  }

  lemma SolfegeLacksDoublyAugmented(number: char)
    requires number in "37"
    ensures forall i :: 0 <= i < |IntervalSolfege| ==> IntervalSolfege[i].0 != ['A', 'A', number]
  {
  }

  /**
   * Rows 33..37 (dd8 .. AA8) repeat the syllables of rows 0..4 (dd1 .. AA1):
   * the octave class sounds like the unison with the same quality.
   */
  lemma SolfegeOctaveIsUnison()
    ensures |IntervalSolfege| == 38
    ensures forall k :: 0 <= k < 5 ==>
      && IntervalSolfege[k].0 == PerfectAlterations[k] + "1"
      && IntervalSolfege[33 + k].0 == PerfectAlterations[k] + "8"
      && IntervalSolfege[33 + k].1 == IntervalSolfege[k].1
  {
  }

  lemma ChordShortSymbolsDistinct()
    ensures forall i, j :: 0 <= i < j < |ChordShort| ==> ChordShort[i].1 != ChordShort[j].1
  {
  }

  /** No two chord names share a short symbol. */
  lemma ChordShortInjective(a: string, b: string)
    requires Lookup(ChordShort, a).Some? && Lookup(ChordShort, a) == Lookup(ChordShort, b)
    ensures a == b
  {
    ChordShortSymbolsDistinct();
    LookupMeaning(ChordShort, a);
    LookupMeaning(ChordShort, b);
    var v := Lookup(ChordShort, a).value;
    var i :| 0 <= i < |ChordShort| && ChordShort[i] == (a, v);
    var j :| 0 <= j < |ChordShort| && ChordShort[j] == (b, v);
    assert i == j;
  }

  /** `unison` and `first` both name step 1. */
  lemma StepNumberSynonyms()
    ensures Lookup(StepNumber, "unison") == Lookup(StepNumber, "first") == Some(1)
  {
    LookupAt(StepNumber, 0);
    LookupAt(StepNumber, 1);
  }

  /** There is no step word for the tenth or the twelfth. */
  lemma StepNumberGaps(word: string)
    requires word in ["tenth", "twelfth"]
    ensures Lookup(StepNumber, word) == None
  {
    assert forall i :: 0 <= i < |StepNumber| ==> |StepNumber[i].0| != 5 || StepNumber[i].0[1] != 'e';
    assert forall i :: 0 <= i < |StepNumber| ==> |StepNumber[i].0| != 7 || StepNumber[i].0[1] != 'w';
    LookupMeaning(StepNumber, word);
  }
}
