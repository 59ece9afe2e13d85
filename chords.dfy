/**
 * Chords (lib/chord.js).  A chord is a root pitch, the symbol it was named
 * with, the intervals that symbol stands for and a voicing: the intervals in
 * the order they are sounded, starting with the bass.  The root is a shared
 * `Pitch` object, so transposing a chord moves every holder of that pitch.
 *
 * The chord-symbol parser, the note parser and the interval operations are
 * not part of this model; they arrive as an `Env`.
 */
module Chords {
  import opened Wrappers
  import opened Js
  import opened Coords
  import opened Knowledge
  import opened Intervals
  import opened Pitches

  /**
   * The collaborators the chord code calls: the interval operations, the
   * chord-symbol parser followed by `Interval.toCoord`, and the coordinate
   * of `Note.fromString`.
   */
  datatype Env = Env(lib: IntervalLib, chordIntervals: string -> seq<Interval>, noteCoord: string -> Coord)

  /** What V8 reports when `root.name()` is undefined and gets upper-cased. */
  const UndefinedName := "Cannot read properties of undefined (reading 'toUpperCase')"

  /** The error `get` raises for an argument it cannot read as a step. */
  const InvalidIntervalName := "Invalid interval name"

  /** The error `parallel` raises for anything but a major or minor triad. */
  const NoParallel := "Only major/minor triads have parallel chords"

  // ---------------------------------------------------------------------
  // Names and symbols
  // ---------------------------------------------------------------------

  /** `root.name().toUpperCase() + root.accidental() + symbol`: the chord's name. */
  function ChordName(root: Coord, symbol: string): string
    requires Spelled(root)
  {
    Upper(Name(root).value) + Text(Accidental(root)) + symbol
  }

  /** A chord's name is the root's name without octave followed by the whole symbol. */
  lemma ChordNameKeepsSymbol(root: Coord, symbol: string)
    requires Spelled(root)
    ensures ChordName(root, symbol) == ToString(root, true) + symbol
    ensures |ChordName(root, symbol)| > |symbol|
    ensures ChordName(root, symbol)[|ChordName(root, symbol)| - |symbol|..] == symbol
  {
  }

  /** Occurrences of `c` in `s`. */
  function CountOf(s: string, c: char): (n: nat)
    ensures n == 0 <==> c !in s
    ensures n <= |s|
  {
    if s == [] then 0 else (if s[0] == c then 1 else 0) + CountOf(s[1..], c)
  }

  /** Position of the first `c` in `s`. */
  function IndexOf(s: string, c: char): (k: nat)
    requires c in s
    ensures k < |s| && s[k] == c && c !in s[..k]
  {
    if s[0] == c then 0 else 1 + IndexOf(s[1..], c)
  }

  /**
   * `symbol.split('/')` when it has exactly two parts and the trimmed second
   * part is not `9`: the head, and the trimmed tail.
   */
  function SlashSplit(symbol: string): Option<(string, string)> {
    if CountOf(symbol, '/') == 1 then SplitAt(symbol, IndexOf(symbol, '/')) else None
  }

  /** The head before index `k` and the trimmed text after it, unless that text is `9`. */
  function SplitAt(symbol: string, k: nat): Option<(string, string)>
    requires k < |symbol|
  {
    var tail := Trim(symbol[k + 1..]);
    if tail != "9" then Some((symbol[..k], tail)) else None
  }

  /** The split succeeds exactly with one `/` whose trimmed tail is not `9`. */
  lemma SlashSplitMeaning(symbol: string)
    ensures SlashSplit(symbol).None? <==>
      (CountOf(symbol, '/') != 1 || Trim(symbol[IndexOf(symbol, '/') + 1..]) == "9")
  {
    if CountOf(symbol, '/') == 1 {
      var k := IndexOf(symbol, '/');
      SlashSplitParts(symbol, k);
      SplitAtParts(symbol, k);
    }
  }

  /**
   * A successful split: the head is everything before the `/`, which occurs
   * nowhere else, and the tail is the trimmed rest, never `9`.
   */
  lemma SlashSplitShape(symbol: string)
    requires SlashSplit(symbol).Some?
    ensures var (head, tail) := SlashSplit(symbol).value;
      |head| < |symbol| && symbol[..|head|] == head && symbol[|head|] == '/'
      && '/' !in head && '/' !in symbol[|head| + 1..]
      && tail == Trim(symbol[|head| + 1..]) && tail != "9"
  {
    var k := IndexOf(symbol, '/');
    SlashSplitParts(symbol, k);
    SplitAtParts(symbol, k);
  }

  /** `SplitAt` fails only on a `9` tail, and otherwise returns the head of length `k` and the trimmed tail. */
  lemma SplitAtParts(symbol: string, k: nat)
    requires k < |symbol|
    ensures SplitAt(symbol, k).None? <==> Trim(symbol[k + 1..]) == "9"
    ensures SplitAt(symbol, k).Some? ==>
      var (head, tail) := SplitAt(symbol, k).value;
      |head| == k && head == symbol[..k] && tail == Trim(symbol[k + 1..]) && tail != "9"
  {
  }

  /** The parts of a split at the only `/`, at index `k`. */
  lemma SlashSplitParts(symbol: string, k: nat)
    requires CountOf(symbol, '/') == 1 && k == IndexOf(symbol, '/')
    ensures k < |symbol| && symbol[k] == '/' && '/' !in symbol[..k] && '/' !in symbol[k + 1..]
    ensures SlashSplit(symbol) == SplitAt(symbol, k)
  {
    CountSplit(symbol, '/', k);
    assert CountOf(symbol[k + 1..], '/') == 0;
  }

  /** Splitting at the first `c` leaves the other occurrences after it. */
  lemma {:induction false} CountSplit(s: string, c: char, k: nat)
    requires k < |s| && s[k] == c && c !in s[..k]
    ensures CountOf(s, c) == 1 + CountOf(s[k + 1..], c)
  {
    if k > 0 {
      assert s[1..][..k - 1] == s[1..k];
      assert s[1..][k - 1..][1..] == s[k + 1..];
      CountSplit(s[1..], c, k - 1);
    }
  }

  /** The symbol handed to the chord-symbol parser: the head of a slash chord. */
  function ParsedSymbol(symbol: string): string {
    match SlashSplit(symbol)
    case Some((head, _)) => head
    case None => symbol
  }

  /** The bass note's name, when the slash part is not empty. */
  function BassText(symbol: string): (r: Option<string>)
    ensures r.Some? ==> SlashSplit(symbol).Some? && r.value == SlashSplit(symbol).value.1 && r.value != ""
  {
    match SlashSplit(symbol)
    case Some((_, tail)) => if tail != "" then Some(tail) else None
    case None => None
  }

  // ---------------------------------------------------------------------
  // Voicing at construction
  // ---------------------------------------------------------------------

  /** The intervals, in order, whose simple form differs from `bass`. */
  function Keep(xs: seq<Interval>, bass: Interval, lib: IntervalLib): (r: seq<Interval>)
    ensures |r| <= |xs|
    decreases |xs|
  {
    if xs == [] then []
    else
      var n := |xs| - 1;
      Keep(xs[..n], bass, lib) + (if lib.simple(xs[n], false) != bass then [xs[n]] else [])
  }

  /** `Keep` keeps exactly the intervals of another simple class. */
  lemma {:induction false} KeepMembers(xs: seq<Interval>, bass: Interval, lib: IntervalLib)
    ensures forall x :: x in Keep(xs, bass, lib) <==> x in xs && lib.simple(x, false) != bass
    decreases |xs|
  {
    if xs != [] {
      var n := |xs| - 1;
      KeepMembers(xs[..n], bass, lib);
      assert xs == xs[..n] + [xs[n]];
    }
  }

  /** `Keep` preserves order: filtering a concatenation concatenates the filtered parts. */
  lemma {:induction false} KeepAppend(a: seq<Interval>, b: seq<Interval>, bass: Interval, lib: IntervalLib)
    ensures Keep(a + b, bass, lib) == Keep(a, bass, lib) + Keep(b, bass, lib)
    decreases |b|
  {
    if b == [] {
      assert a + b == a;
    } else {
      var n := |b| - 1;
      var ab := a + b;
      assert ab[..|ab| - 1] == a + b[..n];
      assert ab[|ab| - 1] == b[n];
      KeepAppend(a, b[..n], bass, lib);
      var last := if lib.simple(b[n], false) != bass then [b[n]] else [];
      assert Keep(ab, bass, lib) == Keep(a, bass, lib) + Keep(b[..n], bass, lib) + last;
      assert Keep(b, bass, lib) == Keep(b[..n], bass, lib) + last;
    }
  }

  /** Filtering one more interval appends it exactly when it passes the test. */
  lemma KeepSnoc(xs: seq<Interval>, i: nat, bass: Interval, lib: IntervalLib)
    requires i < |xs|
    ensures Keep(xs[..i + 1], bass, lib)
      == Keep(xs[..i], bass, lib) + (if lib.simple(xs[i], false) != bass then [xs[i]] else [])
  {
    assert xs[..i + 1][..i] == xs[..i];
  }

  /** The interval from the root up to the bass note placed in the octave above the root's. */
  function BassInterval(root: Coord, bass: string, noteCoord: string -> Coord): Interval {
    Between(root, noteCoord(bass + IntToString(Octave(root) + 1)))
  }

  /**
   * A slash chord's voicing: the bass interval inverted and pointed down,
   * then every interval whose simple form is not the bass's.
   */
  function SlashVoicing(root: Coord, bass: string, intervals: seq<Interval>, env: Env): (r: seq<Interval>)
    ensures |r| >= 1
    ensures r[0] == env.lib.setDirection(env.lib.invert(BassInterval(root, bass, env.noteCoord)), Down)
    ensures r[1..] == Keep(intervals, env.lib.simple(BassInterval(root, bass, env.noteCoord), false), env.lib)
  {
    var bassInterval := BassInterval(root, bass, env.noteCoord);
    [env.lib.setDirection(env.lib.invert(bassInterval), Down)]
      + Keep(intervals, env.lib.simple(bassInterval, false), env.lib)
  }

  /** The constructor's slash-chord branch: the inverted bass, then the push loop. */
  method BuildSlashVoicing(root: Coord, bass: string, intervals: seq<Interval>, env: Env) returns (v: seq<Interval>)
    ensures v == SlashVoicing(root, bass, intervals, env)
  {
    var bassInterval := BassInterval(root, bass, env.noteCoord);
    var bassSimple := env.lib.simple(bassInterval, false);
    var head := env.lib.setDirection(env.lib.invert(bassInterval), Down);
    v := PushKept(head, intervals, bassSimple, env.lib);
  }

  /** The push loop: after `head`, every interval whose simple form is not `bassSimple`, in order. */
  method PushKept(head: Interval, intervals: seq<Interval>, bassSimple: Interval, lib: IntervalLib) returns (v: seq<Interval>)
    ensures v == [head] + Keep(intervals, bassSimple, lib)
  {
    v := [head];
    var i := 0;
    while i < |intervals|
      invariant 0 <= i <= |intervals|
      invariant v == [head] + Keep(intervals[..i], bassSimple, lib)
    {
      KeepSnoc(intervals, i, bassSimple, lib);
      if lib.simple(intervals[i], false) != bassSimple {
        v := v + [intervals[i]];
      }
      i := i + 1;
    }
    assert intervals[..i] == intervals;
  }

  /** The voicing the constructor leaves. */
  function InitialVoicing(root: Coord, bass: Option<string>, intervals: seq<Interval>, env: Env): seq<Interval> {
    match bass
    case Some(b) => SlashVoicing(root, b, intervals, env)
    case None => intervals
  }

  /**
   * Without exactly one `/`, or with a `/9` tail, the whole symbol is parsed
   * and the voicing is the interval list.
   */
  lemma PlainVoicing(root: Coord, symbol: string, intervals: seq<Interval>, env: Env)
    requires CountOf(symbol, '/') != 1 || Trim(symbol[IndexOf(symbol, '/') + 1..]) == "9"
    ensures ParsedSymbol(symbol) == symbol
    ensures InitialVoicing(root, BassText(symbol), intervals, env) == intervals
  {
    SlashSplitMeaning(symbol);
  }

  /**
   * With a bass note, the voicing starts with the inverted, descending bass
   * interval and then keeps exactly the intervals of another simple class,
   * in their original order.
   */
  lemma SlashBassVoicing(root: Coord, bass: string, intervals: seq<Interval>, env: Env)
    ensures var v, b := InitialVoicing(root, Some(bass), intervals, env), BassInterval(root, bass, env.noteCoord);
      v[0] == env.lib.setDirection(env.lib.invert(b), Down)
      && (forall x :: x in v[1..] <==> x in intervals && env.lib.simple(x, false) != env.lib.simple(b, false))
      && (forall k :: 0 <= k < |intervals| ==>
            v[1..] == Keep(intervals[..k], env.lib.simple(b, false), env.lib)
                      + Keep(intervals[k..], env.lib.simple(b, false), env.lib))
  {
    var bassSimple := env.lib.simple(BassInterval(root, bass, env.noteCoord), false);
    KeepMembers(intervals, bassSimple, env.lib);
    forall k | 0 <= k < |intervals|
      ensures Keep(intervals, bassSimple, env.lib)
        == Keep(intervals[..k], bassSimple, env.lib) + Keep(intervals[k..], bassSimple, env.lib)
    {
      assert intervals == intervals[..k] + intervals[k..];
      KeepAppend(intervals[..k], intervals[k..], bassSimple, env.lib);
    }
  }

  /** A slash chord hands only the part before the `/` to the parser. */
  lemma SlashHead(symbol: string, head: string, tail: string)
    requires SlashSplit(symbol) == Some((head, tail))
    ensures ParsedSymbol(symbol) == head
  {
  }

  lemma SlashPrefix(symbol: string, head: string, tail: string)
    requires SlashSplit(symbol) == Some((head, tail))
    ensures head + "/" <= symbol
  {
    SlashSplitShape(symbol);
    PrefixThrough(symbol, |head|);
  }

  /** The first `n` characters and the one after them form a prefix. */
  lemma PrefixThrough(s: string, n: nat)
    requires n < |s|
    ensures s[..n] + [s[n]] <= s
  {
    assert s[..n] + [s[n]] == s[..n + 1];
  }

  /** The bass note is the slash part whenever that part is not empty. */
  lemma SlashBass(symbol: string, head: string, tail: string)
    requires SlashSplit(symbol) == Some((head, tail))
    ensures BassText(symbol) == if tail == "" then None else Some(tail)
  {
  }

  /** The constructor's parse: the intervals of the parsed symbol and the voicing built from them. */
  method ParsedVoicing(root: Coord, symbol: string, env: Env) returns (intervals: seq<Interval>, voicing: seq<Interval>)
    ensures intervals == env.chordIntervals(ParsedSymbol(symbol))
    ensures voicing == InitialVoicing(root, BassText(symbol), intervals, env)
  {
    intervals := env.chordIntervals(ParsedSymbol(symbol));
    var bass := BassText(symbol);
    if bass.Some? {
      voicing := BuildSlashVoicing(root, bass.value, intervals, env);
    } else {
      voicing := intervals;
    }
  }

  // ---------------------------------------------------------------------
  // Scans
  // ---------------------------------------------------------------------

  /** Index of the first interval satisfying `p`. */
  function FirstIndex(xs: seq<Interval>, p: Interval -> bool): (r: Option<nat>)
    ensures r.None? <==> forall k :: 0 <= k < |xs| ==> !p(xs[k])
    ensures r.Some? ==> r.value < |xs| && p(xs[r.value]) && forall k :: 0 <= k < r.value ==> !p(xs[k])
    decreases |xs|
  {
    if xs == [] then None
    else if p(xs[0]) then Some(0)
    else match FirstIndex(xs[1..], p)
      case Some(k) => Some(k + 1)
      case None => None
  }

  /** The interval at an optional index. */
  function At(xs: seq<Interval>, k: Option<nat>): Option<Interval>
    requires k.Some? ==> k.value < |xs|
  {
    match k
    case Some(i) => Some(xs[i])
    case None => None
  }

  /** Does `x` fall on degree `n` of the chord: `(number - 1) % 7 === (n - 1) % 7`, truncating. */
  predicate OnDegree(lib: IntervalLib, n: int, x: Interval) {
    Rem(lib.number(x) - 1, 7) == Rem(n - 1, 7)
  }

  /** `getDegree(n)`: the first interval on degree `n`, or null. */
  function DegreeOf(intervals: seq<Interval>, n: int, lib: IntervalLib): (r: Option<Interval>)
    ensures r.None? <==> forall k :: 0 <= k < |intervals| ==> !OnDegree(lib, n, intervals[k])
    ensures r.Some? ==>
      exists k :: 0 <= k < |intervals| && intervals[k] == r.value
        && OnDegree(lib, n, intervals[k]) && forall j :: 0 <= j < k ==> !OnDegree(lib, n, intervals[j])
  {
    At(intervals, FirstIndex(intervals, x => OnDegree(lib, n, x)))
  }

  /** Scans with pointwise equal tests find the same index. */
  lemma FirstIndexPointwise(xs: seq<Interval>, p: Interval -> bool, q: Interval -> bool)
    requires forall k :: 0 <= k < |xs| ==> p(xs[k]) == q(xs[k])
    ensures FirstIndex(xs, p) == FirstIndex(xs, q)
  {
    if FirstIndex(xs, p).Some? {
      assert FirstIndex(xs, q).Some?;
    }
  }

  /** Degrees repeat every octave: `getDegree(n + 7) == getDegree(n)`, e.g. 9 and 2. */
  lemma DegreeOctaveEquivalent(intervals: seq<Interval>, n: int, lib: IntervalLib)
    requires n >= 1
    ensures DegreeOf(intervals, n + 7, lib) == DegreeOf(intervals, n, lib)
  {
    DivModUnique(n + 6, 7, (n - 1) / 7 + 1, (n - 1) % 7);
    FirstIndexPointwise(intervals, x => OnDegree(lib, n + 7, x), x => OnDegree(lib, n, x));
  }

  /** The interval whose number is exactly `n`, with no octave reduction. */
  function NumberedOf(intervals: seq<Interval>, n: int, lib: IntervalLib): (r: Option<Interval>)
    ensures r.None? <==> forall k :: 0 <= k < |intervals| ==> lib.number(intervals[k]) != n
    ensures r.Some? ==>
      exists k :: 0 <= k < |intervals| && intervals[k] == r.value
        && lib.number(intervals[k]) == n && forall j :: 0 <= j < k ==> lib.number(intervals[j]) != n
  {
    At(intervals, FirstIndex(intervals, x => lib.number(x) == n))
  }

  /** The argument of `get`: a number, a string, or anything else. */
  datatype StepArg = NumberArg(n: int) | StringArg(s: string) | OtherArg

  /** The pitch an optional interval reaches from the root. */
  function Reached(root: Coord, i: Option<Interval>): Option<Coord> {
    match i
    case Some(x) => Some(PitchAt(root, x))
    case None => None
  }

  /**
   * `get(x)`: a number is matched exactly; a property of `knowledge.stepNumber`
   * (inherited ones included, which match nothing) is mapped to its number
   * first; anything else throws.
   */
  function GetOf(root: Coord, intervals: seq<Interval>, x: StepArg, lib: IntervalLib): Result<Option<Coord>> {
    match x
    case NumberArg(n) => Ok(Reached(root, NumberedOf(intervals, n, lib)))
    case StringArg(s) =>
      (match Lookup(StepNumber, s)
       case Some(n) => Ok(Reached(root, NumberedOf(intervals, n, lib)))
       case None => if s in ObjectPrototypeKeys then Ok(None) else Err(InvalidIntervalName))
    case OtherArg => Err(InvalidIntervalName)
  }

  /** Step words are read through `stepNumber`: `ninth` is 9, `unison` and `first` are 1. */
  lemma GetStepWords(root: Coord, intervals: seq<Interval>, lib: IntervalLib)
    ensures GetOf(root, intervals, StringArg("ninth"), lib) == GetOf(root, intervals, NumberArg(9), lib)
    ensures GetOf(root, intervals, StringArg("unison"), lib) == GetOf(root, intervals, NumberArg(1), lib)
    ensures GetOf(root, intervals, StringArg("first"), lib) == GetOf(root, intervals, NumberArg(1), lib)
  {
    StepNumberSynonyms();
    StepNumberNinth();
  }

  lemma StepNumberNinth()
    ensures Lookup(StepNumber, "ninth") == Some(9)
  {
    assert StepNumber[9] == ("ninth", 9);
    assert forall j :: 0 <= j < 9 ==> StepNumber[j].0 != "ninth";
    LookupAt(StepNumber, 9);
  }

  /** A word missing from `stepNumber`, such as `tenth`, throws. */
  lemma GetMissingWord(root: Coord, intervals: seq<Interval>, lib: IntervalLib)
    ensures GetOf(root, intervals, StringArg("tenth"), lib) == Err(InvalidIntervalName)
  {
    StepNumberGaps("tenth");
    TenthNotInherited();
  }

  lemma TenthNotInherited()
    ensures "tenth" !in ObjectPrototypeKeys
  {
    assert |"tenth"| == 5;
    assert forall k :: k in ObjectPrototypeKeys ==> |k| != 5;
  }

  /** An inherited property name such as `toString` is "in" `stepNumber` but finds nothing. */
  lemma GetInheritedName(root: Coord, intervals: seq<Interval>, lib: IntervalLib)
    ensures GetOf(root, intervals, StringArg("toString"), lib) == Ok(None)
  {
    assert forall j :: 0 <= j < |StepNumber| ==> StepNumber[j].0 != "toString";
    LookupMeaning(StepNumber, "toString");
  }

  // ---------------------------------------------------------------------
  // Chord type
  // ---------------------------------------------------------------------

  const TriadSlots: seq<string> := ["first", "third", "fifth"]
  const TetradSlots: seq<string> := ["first", "third", "fifth", "seventh"]

  /** The `has` record before the loop: every slot false. */
  function InitialSlots(slots: seq<string>): map<string, bool> {
    map s | s in slots :: false
  }

  /** `key in has`: an own key or one inherited from `Object.prototype`. */
  predicate InObject(has: map<string, bool>, key: string) {
    key in has || key in ObjectPrototypeKeys
  }

  /** One step of the `chordType` loop: mark the interval's class, else its inversion's. */
  function MarkSlot(has: map<string, bool>, x: Interval, lib: IntervalLib): map<string, bool> {
    var b := lib.base(x, lib.octaveIsSimple);
    var ib := lib.base(lib.invert(x), lib.octaveIsSimple);
    if InObject(has, b) then has[b := true]
    else if InObject(has, ib) then has[ib := true]
    else has
  }

  /** The `chordType` loop over `xs`. */
  function MarkSlots(has: map<string, bool>, xs: seq<Interval>, lib: IntervalLib): map<string, bool>
    decreases |xs|
  {
    if xs == [] then has
    else MarkSlot(MarkSlots(has, xs[..|xs| - 1], lib), xs[|xs| - 1], lib)
  }

  /** Every slot is set. */
  predicate AllSet(has: map<string, bool>, slots: seq<string>) {
    forall s :: s in slots ==> s in has && has[s]
  }

  /** `chordType()` over the slot names of a triad and of a tetrad. */
  function SlotType(triad: seq<string>, tetrad: seq<string>, intervals: seq<Interval>, lib: IntervalLib): (r: string)
    ensures |intervals| == 2 <==> r == "dyad"
    ensures |intervals| == 3 <==> r in {"triad", "trichord"}
    ensures |intervals| == 4 ==> r in {"tetrad", "unknown"}
    ensures |intervals| !in {2, 3, 4} ==> r == "unknown"
  {
    if |intervals| == 2 then "dyad"
    else if |intervals| == 3 then
      if AllSet(MarkSlots(InitialSlots(triad), intervals, lib), triad) then "triad" else "trichord"
    else if |intervals| == 4 then
      if AllSet(MarkSlots(InitialSlots(tetrad), intervals, lib), tetrad) then "tetrad" else "unknown"
    else "unknown"
  }

  /** `chordType()`, with the slot names of the source. */
  function ChordTypeOf(intervals: seq<Interval>, lib: IntervalLib): string {
    SlotType(TriadSlots, TetradSlots, intervals, lib)
  }

  /**
   * Interval `x` marks slot `s`: its class is `s`, or its class is neither a
   * slot nor an inherited property name and its inversion's class is `s`.
   */
  predicate Marks(lib: IntervalLib, slots: seq<string>, x: Interval, s: string) {
    var b := lib.base(x, lib.octaveIsSimple);
    b == s || (b !in slots && b !in ObjectPrototypeKeys && lib.base(lib.invert(x), lib.octaveIsSimple) == s)
  }

  /** The keys of `has`: all the slots, plus possibly inherited property names. */
  predicate SlotKeys(has: map<string, bool>, slots: seq<string>) {
    (forall s :: s in slots ==> s in has)
    && (forall k :: k in has ==> k in slots || k in ObjectPrototypeKeys)
  }

  /** One step sets a slot exactly when it was set already or the interval marks it. */
  lemma MarkSlotMeaning(has: map<string, bool>, slots: seq<string>, x: Interval, lib: IntervalLib)
    requires SlotKeys(has, slots)
    ensures SlotKeys(MarkSlot(has, x, lib), slots)
    ensures forall s :: s in slots ==> (MarkSlot(has, x, lib)[s] <==> has[s] || Marks(lib, slots, x, s))
  {
  }

  /** After the loop, a slot is set exactly when it was already or some interval marks it. */
  lemma {:induction false} MarkSlotsMeaning(has: map<string, bool>, slots: seq<string>, xs: seq<Interval>, lib: IntervalLib)
    requires SlotKeys(has, slots)
    ensures SlotKeys(MarkSlots(has, xs, lib), slots)
    ensures forall s :: s in slots ==>
      (MarkSlots(has, xs, lib)[s] <==> has[s] || exists k :: 0 <= k < |xs| && Marks(lib, slots, xs[k], s))
    decreases |xs|
  {
    if xs != [] {
      var n := |xs| - 1;
      MarkSlotsMeaning(has, slots, xs[..n], lib);
      var before := MarkSlots(has, xs[..n], lib);
      MarkSlotMeaning(before, slots, xs[n], lib);
      assert MarkSlots(has, xs, lib) == MarkSlot(before, xs[n], lib);
      forall s | s in slots
        ensures MarkSlots(has, xs, lib)[s] <==> has[s] || exists k :: 0 <= k < |xs| && Marks(lib, slots, xs[k], s)
      {
        if exists k :: 0 <= k < |xs| && Marks(lib, slots, xs[k], s) {
          var k :| 0 <= k < |xs| && Marks(lib, slots, xs[k], s);
          if k < n {
            assert xs[..n][k] == xs[k];
          }
        }
        if exists k :: 0 <= k < n && Marks(lib, slots, xs[..n][k], s) {
          var k :| 0 <= k < n && Marks(lib, slots, xs[..n][k], s);
          assert xs[k] == xs[..n][k];
        }
      }
    }
  }

  /**
   * Three intervals make a triad, and four a tetrad, exactly when every slot
   * is marked by some interval.
   */
  lemma SlotTypeMeaning(triad: seq<string>, tetrad: seq<string>, intervals: seq<Interval>, lib: IntervalLib)
    ensures |intervals| == 3 ==>
      (SlotType(triad, tetrad, intervals, lib) == "triad" <==>
        forall s :: s in triad ==> exists k :: 0 <= k < 3 && Marks(lib, triad, intervals[k], s))
    ensures |intervals| == 4 ==>
      (SlotType(triad, tetrad, intervals, lib) == "tetrad" <==>
        forall s :: s in tetrad ==> exists k :: 0 <= k < 4 && Marks(lib, tetrad, intervals[k], s))
  {
    MarkSlotsMeaning(InitialSlots(triad), triad, intervals, lib);
    MarkSlotsMeaning(InitialSlots(tetrad), tetrad, intervals, lib);
  }

  /** `SlotTypeMeaning` for the slot names of the source. */
  lemma ChordTypeMeaning(intervals: seq<Interval>, lib: IntervalLib)
    ensures |intervals| == 3 ==>
      (ChordTypeOf(intervals, lib) == "triad" <==>
        forall s :: s in TriadSlots ==> exists k :: 0 <= k < 3 && Marks(lib, TriadSlots, intervals[k], s))
    ensures |intervals| == 4 ==>
      (ChordTypeOf(intervals, lib) == "tetrad" <==>
        forall s :: s in TetradSlots ==> exists k :: 0 <= k < 4 && Marks(lib, TetradSlots, intervals[k], s))
  {
    SlotTypeMeaning(TriadSlots, TetradSlots, intervals, lib);
  }

  /**
   * The `first` slot is only set by an interval whose class, or whose
   * inversion's class, is the literal `first`; without one the chord is
   * never a triad or a tetrad.
   */
  lemma NoFirstNoTriad(intervals: seq<Interval>, lib: IntervalLib)
    requires forall k :: 0 <= k < |intervals| ==>
      lib.base(intervals[k], lib.octaveIsSimple) != "first"
      && lib.base(lib.invert(intervals[k]), lib.octaveIsSimple) != "first"
    ensures ChordTypeOf(intervals, lib) != "triad" && ChordTypeOf(intervals, lib) != "tetrad"
  {
    ChordTypeMeaning(intervals, lib);
    if |intervals| == 3 {
      assert "first" in TriadSlots;
    } else if |intervals| == 4 {
      assert "first" in TetradSlots;
    }
  }

  /**
   * When the class names are those of `knowledge.intervalsIndex`, which
   * calls the first class `unison`, no chord is a triad or a tetrad.
   */
  lemma IndexNamesNoTriad(intervals: seq<Interval>, lib: IntervalLib)
    requires forall k :: 0 <= k < |intervals| ==>
      lib.base(intervals[k], lib.octaveIsSimple) in IntervalsIndex
      && lib.base(lib.invert(intervals[k]), lib.octaveIsSimple) in IntervalsIndex
    ensures ChordTypeOf(intervals, lib) != "triad" && ChordTypeOf(intervals, lib) != "tetrad"
  {
    assert "first" !in IntervalsIndex;
    NoFirstNoTriad(intervals, lib);
  }

  /** The three intervals carry the class names of a root, a third and a fifth. */
  predicate RootThirdFifth(intervals: seq<Interval>, lib: IntervalLib) {
    |intervals| == 3
    && lib.base(intervals[0], lib.octaveIsSimple) == "unison"
    && lib.base(intervals[1], lib.octaveIsSimple) == "third"
    && lib.base(intervals[2], lib.octaveIsSimple) == "fifth"
  }

  /**
   * As written, a root, a third and a fifth named the way `base()` names
   * them (the first class is `unison`) make a trichord, not a triad.
   */
  lemma RootThirdFifthAsWritten(intervals: seq<Interval>, lib: IntervalLib)
    requires RootThirdFifth(intervals, lib)
    requires forall k :: 0 <= k < 3 ==> lib.base(lib.invert(intervals[k]), lib.octaveIsSimple) in IntervalsIndex
    ensures ChordTypeOf(intervals, lib) == "trichord"
  {
    assert IntervalsIndex[0] == "unison" && IntervalsIndex[2] == "third" && IntervalsIndex[4] == "fifth";
    IndexNamesNoTriad(intervals, lib);
  }

  /** The slot names `chordType()` evidently means, with the root slot named `unison`. */
  const UnisonTriadSlots: seq<string> := ["unison", "third", "fifth"]
  const UnisonTetradSlots: seq<string> := ["unison", "third", "fifth", "seventh"]

  /** `chordType()` with slot names that `base()` can produce. */
  function CorrectedChordType(intervals: seq<Interval>, lib: IntervalLib): string {
    SlotType(UnisonTriadSlots, UnisonTetradSlots, intervals, lib)
  }

  /** With the root slot named `unison`, a root, a third and a fifth make a triad. */
  lemma RootThirdFifthCorrected(intervals: seq<Interval>, lib: IntervalLib)
    requires RootThirdFifth(intervals, lib)
    ensures CorrectedChordType(intervals, lib) == "triad"
  {
    SlotTypeMeaning(UnisonTriadSlots, UnisonTetradSlots, intervals, lib);
    assert Marks(lib, UnisonTriadSlots, intervals[0], "unison");
    assert Marks(lib, UnisonTriadSlots, intervals[1], "third");
    assert Marks(lib, UnisonTriadSlots, intervals[2], "fifth");
  }

  // ---------------------------------------------------------------------
  // Quality
  // ---------------------------------------------------------------------

  /** The quality symbol found on degrees 2 to 7, null where the degree is missing. */
  datatype Degrees = Degrees(
    second: Option<string>, third: Option<string>, fourth: Option<string>,
    fifth: Option<string>, sixth: Option<string>, seventh: Option<string>)

  /** JavaScript truthiness of a quality symbol: present and not empty. */
  predicate Truthy(d: Option<string>) {
    d.Some? && d.value != ""
  }

  function QualityAt(intervals: seq<Interval>, n: int, lib: IntervalLib): Option<string> {
    match DegreeOf(intervals, n, lib)
    case Some(i) => Some(lib.quality(i))
    case None => None
  }

  /** The `degrees` record of `quality()`. */
  function DegreesOf(intervals: seq<Interval>, lib: IntervalLib): Degrees {
    Degrees(QualityAt(intervals, 2, lib), QualityAt(intervals, 3, lib), QualityAt(intervals, 4, lib),
            QualityAt(intervals, 5, lib), QualityAt(intervals, 6, lib), QualityAt(intervals, 7, lib))
  }

  /** The 24 `return` statements of `quality()`, in source order. */
  datatype QualityRule =
    | Dominant11th | Dominant13th
    | AugmentedSeventh | Augmented | DominantNinth | DominantNinthRepeated | Dominant
    | Major13th | MajorNinth | MajorSeventh | AugmentedRepeated | MajorSixth | Major
    | DiminishedSeventh | HalfDiminished | Diminished | MinorNinth | MinorSeventh
    | MinorSixth | MajorMinor | Minor
    | SuspendedSecond | SuspendedFourth | Other

  /** The `return` statement `quality()` reaches, test by test. */
  function QualityRuleOf(d: Degrees): QualityRule {
    if !Truthy(d.third) && d.seventh == Some("m") && d.second == Some("M") && d.fourth == Some("P") then Dominant11th
    else if d.seventh == Some("m") && d.third == Some("M") && d.sixth == Some("M") then Dominant13th
    else if d.third == Some("M") then
      if d.fifth == Some("A") then
        if d.seventh == Some("m") then AugmentedSeventh else Augmented
      else if d.seventh == Some("m") then
        if d.second == Some("M") then DominantNinth
        else if d.second == Some("M") then DominantNinthRepeated
        else Dominant
      else if d.seventh == Some("M") then
        if d.sixth == Some("M") then Major13th
        else if d.second == Some("M") then MajorNinth
        else MajorSeventh
      else if d.fifth == Some("A") then AugmentedRepeated
      else if d.sixth == Some("M") then MajorSixth
      else Major
    else if d.third == Some("m") then
      if d.fifth == Some("d") then
        if d.seventh == Some("d") then DiminishedSeventh
        else if d.seventh == Some("m") then HalfDiminished
        else Diminished
      else if d.seventh == Some("m") then
        if d.second == Some("M") then MinorNinth else MinorSeventh
      else if d.sixth == Some("M") then MinorSixth
      else if d.seventh == Some("M") then MajorMinor
      else Minor
    else if d.fifth == Some("P") || !Truthy(d.fifth) then
      if d.second == Some("M") then SuspendedSecond
      else if d.fourth == Some("P") then SuspendedFourth
      else Other
    else Other
  }

  /** The string each `return` statement yields. */
  function QualityName(rule: QualityRule): string {
    match rule
    case Dominant11th => "dominant-11th"
    case Dominant13th => "dominant-13th"
    case AugmentedSeventh => "augmented-seventh"
    case Augmented => "augmented"
    case DominantNinth => "dominant-ninth"
    case DominantNinthRepeated => "dominant-ninth"
    case Dominant => "dominant"
    case Major13th => "major-13th"
    case MajorNinth => "major-ninth"
    case MajorSeventh => "major-seventh"
    case AugmentedRepeated => "augmented"
    case MajorSixth => "major-sixth"
    case Major => "major"
    case DiminishedSeventh => "diminished-seventh"
    case HalfDiminished => "half-diminished"
    case Diminished => "diminished"
    case MinorNinth => "minor-ninth"
    case MinorSeventh => "minor-seventh"
    case MinorSixth => "minor-sixth"
    case MajorMinor => "major-minor"
    case Minor => "minor"
    case SuspendedSecond => "suspended-second"
    case SuspendedFourth => "suspended-fourth"
    case Other => "other"
  }

  /** The row of `knowledge.chordShort` whose key each named quality is. */
  function ShortRow(rule: QualityRule): (i: nat)
    requires rule != Other
    ensures i < |ChordShort| && ChordShort[i].0 == QualityName(rule)
  {
    match rule
    case Major => 0
    case Minor => 1
    case Augmented => 2
    case AugmentedRepeated => 2
    case Diminished => 3
    case Dominant => 4
    case MajorSeventh => 5
    case MinorSeventh => 6
    case DiminishedSeventh => 7
    case AugmentedSeventh => 8
    case HalfDiminished => 9
    case MajorMinor => 10
    case MajorSixth => 11
    case MinorSixth => 12
    case DominantNinth => 13
    case DominantNinthRepeated => 13
    case MajorNinth => 14
    case MinorNinth => 15
    case Dominant11th => 16
    case Dominant13th => 19
    case Major13th => 20
    case SuspendedSecond => 22
    case SuspendedFourth => 23
  }

  /** The 22 strings `quality()` can return. */
  const QualityNames: seq<string> := [
    "dominant-11th", "dominant-13th", "augmented-seventh", "augmented",
    "dominant-ninth", "dominant", "major-13th", "major-ninth", "major-seventh",
    "major-sixth", "major", "diminished-seventh", "half-diminished",
    "diminished", "minor-ninth", "minor-seventh", "minor-sixth", "major-minor",
    "minor", "suspended-second", "suspended-fourth", "other"]

  /**
   * `quality()` returns one of 22 strings, each a key of `chordShort` except
   * `other`; the second `dominant-ninth` test and the second `augmented`
   * test can never decide.
   */
  lemma QualityRange(d: Degrees)
    ensures QualityRuleOf(d) != DominantNinthRepeated && QualityRuleOf(d) != AugmentedRepeated
    ensures QualityName(QualityRuleOf(d)) in QualityNames
    ensures QualityRuleOf(d) != Other ==>
      exists i :: 0 <= i < |ChordShort| && ChordShort[i].0 == QualityName(QualityRuleOf(d))
  {
    var rule := QualityRuleOf(d);
    QualityNameListed(rule);
    if rule != Other {
      var i := ShortRow(rule);
    }
  }

  /** Each `return` statement yields one of the 22 strings. */
  lemma QualityNameListed(rule: QualityRule)
    ensures QualityName(rule) in QualityNames
  {
  }

  /**
   * The first test: no third, a minor seventh, a major second and a perfect
   * fourth make a dominant 11th, whatever else is there.
   */
  lemma Dominant11thFirst(d: Degrees)
    ensures QualityRuleOf(d) == Dominant11th <==>
      !Truthy(d.third) && d.seventh == Some("m") && d.second == Some("M") && d.fourth == Some("P")
  {
  }

  /** A minor seventh, major third and major sixth make a dominant 13th even over an augmented fifth. */
  lemma Dominant13thOverAugmented(d: Degrees)
    requires d.seventh == Some("m") && d.third == Some("M") && d.sixth == Some("M")
    ensures QualityRuleOf(d) == Dominant13th
  {
  }

  /** With a major third, an augmented fifth is tested before the dominant branch. */
  lemma AugmentedBeforeDominant(d: Degrees)
    requires d.third == Some("M") && d.fifth == Some("A") && d.sixth != Some("M")
    ensures QualityRuleOf(d) == (if d.seventh == Some("m") then AugmentedSeventh else Augmented)
  {
  }

  /** The suspended qualities need a third that is neither major nor minor. */
  lemma SuspendedWithoutThird(d: Degrees)
    requires QualityRuleOf(d) in {SuspendedSecond, SuspendedFourth}
    ensures d.third != Some("M") && d.third != Some("m")
    ensures d.fifth == Some("P") || !Truthy(d.fifth)
  {
  }

  // ---------------------------------------------------------------------
  // The Chord object
  // ---------------------------------------------------------------------

  class Chord {
    var name: string
    const symbol: string
    const root: Pitch
    const intervals: seq<Interval>
    var voicing: seq<Interval>

    /**
     * `new Chord(root, symbol)`: the name keeps the whole symbol, the parser
     * sees the head of a slash chord, and a bass note rebuilds the voicing.
     */
    constructor(root: Pitch, symbol: string, env: Env)
      requires Spelled(root.coord)
      ensures this.root == root && this.symbol == symbol
      ensures name == ChordName(root.coord, symbol)
      ensures intervals == env.chordIntervals(ParsedSymbol(symbol))
      ensures voicing == InitialVoicing(root.coord, BassText(symbol), intervals, env)
    {
      var ints, v := ParsedVoicing(root.coord, symbol, env);
      this.name := ChordName(root.coord, symbol);
      this.symbol := symbol;
      this.root := root;
      this.intervals := ints;
      this.voicing := v;
    }

    /** `notes()`: the pitch each voicing interval reaches from the root, in voicing order. */
    function Notes(): (r: seq<Coord>)
      reads this, root
      ensures |r| == |voicing|
      ensures forall k :: 0 <= k < |r| ==> Between(root.coord, r[k]) == voicing[k]
    {
      seq(|voicing|, k requires 0 <= k < |voicing| reads this, root => PitchAt(root.coord, voicing[k]))
    }

    /**
     * `simple()`: the note names without octaves. A note without a letter
     * makes its `toString(true)` throw the TypeError.
     */
    function SimpleNames(): (r: Result<seq<string>>)
      reads this, root
      ensures r.Err? <==> exists k :: 0 <= k < |voicing| && !Spelled(Notes()[k])
      ensures r.Err? ==> r.message == UndefinedName
      ensures r.Ok? ==> |r.value| == |voicing|
      ensures r.Ok? ==> forall k :: 0 <= k < |r.value| ==>
        Spelled(Notes()[k]) && r.value[k] == ToString(Notes()[k], true)
        && r.value[k] + IntToString(Octave(Notes()[k])) == Scientific(Notes()[k])
    {
      var notes := Notes();
      if forall k :: 0 <= k < |notes| ==> Spelled(notes[k]) then
        var names := seq(|notes|, k requires 0 <= k < |notes| => ToString(notes[k], true));
        NamesWithoutOctaves(notes, names);
        Ok(names)
      else
        Err(UndefinedName)
    }

    /** `bass()`: the lowest note, undefined for an empty voicing. */
    function Bass(): (r: Option<Coord>)
      reads this, root
      ensures r.None? <==> voicing == []
      ensures r.Some? ==> r.value == Notes()[0]
    {
      if voicing == [] then None else Some(PitchAt(root.coord, voicing[0]))
    }

    /** `isMajor()`: the interval on degree 3 is major. */
    predicate IsMajor(lib: IntervalLib) {
      match DegreeOf(intervals, 3, lib)
      case Some(i) => lib.quality(i) == "M"
      case None => false
    }

    /** `isMinor()`: the interval on degree 3 is minor. */
    predicate IsMinor(lib: IntervalLib) {
      match DegreeOf(intervals, 3, lib)
      case Some(i) => lib.quality(i) == "m"
      case None => false
    }

    /** `quality()`. */
    function Quality(lib: IntervalLib): string {
      QualityName(QualityRuleOf(DegreesOf(intervals, lib)))
    }

    /** `getDegree(n)`: scan for the first interval on degree `n`. */
    method GetDegree(n: int, lib: IntervalLib) returns (r: Option<Interval>)
      ensures r == DegreeOf(intervals, n, lib)
    {
      var degree := Rem(n - 1, 7);
      var i := 0;
      while i < |intervals|
        invariant 0 <= i <= |intervals|
        invariant forall k :: 0 <= k < i ==> !OnDegree(lib, n, intervals[k])
      {
        if Rem(lib.number(intervals[i]) - 1, 7) == degree {
          return Some(intervals[i]);
        }
        i := i + 1;
      }
      return None;
    }

    /** The scan `get` runs twice: the first interval numbered exactly `n`. */
    method FindNumbered(n: int, lib: IntervalLib) returns (r: Option<Interval>)
      ensures r == NumberedOf(intervals, n, lib)
    {
      var i := 0;
      while i < |intervals|
        invariant 0 <= i <= |intervals|
        invariant forall k :: 0 <= k < i ==> lib.number(intervals[k]) != n
      {
        if lib.number(intervals[i]) == n {
          return Some(intervals[i]);
        }
        i := i + 1;
      }
      return None;
    }

    /** `get(x)`: the pitch of the interval with the requested number. */
    method Get(x: StepArg, lib: IntervalLib) returns (r: Result<Option<Coord>>)
      ensures r == GetOf(root.coord, intervals, x, lib)
    {
      match x {
        case NumberArg(n) =>
          var found := FindNumbered(n, lib);
          r := Ok(Reached(root.coord, found));
        case StringArg(s) =>
          match Lookup(StepNumber, s) {
            case Some(n) =>
              var found := FindNumbered(n, lib);
              r := Ok(Reached(root.coord, found));
            case None =>
              r := if s in ObjectPrototypeKeys then Ok(None) else Err(InvalidIntervalName);
          }
        case OtherArg =>
          r := Err(InvalidIntervalName);
      }
    }

    /** `chordType()`: the slot-marking loop for three or four intervals. */
    method ChordType(lib: IntervalLib) returns (r: string)
      ensures r == ChordTypeOf(intervals, lib)
    {
      var length := |intervals|;
      if length == 2 {
        r := "dyad";
      } else if length == 3 || length == 4 {
        var slots := if length == 3 then TriadSlots else TetradSlots;
        var has := InitialSlots(slots);
        var i := 0;
        while i < length
          invariant 0 <= i <= length
          invariant has == MarkSlots(InitialSlots(slots), intervals[..i], lib)
        {
          assert intervals[..i + 1][..i] == intervals[..i];
          var interval := intervals[i];
          var invert := lib.invert(interval);
          if InObject(has, lib.base(interval, lib.octaveIsSimple)) {
            has := has[lib.base(interval, lib.octaveIsSimple) := true];
          } else if InObject(has, lib.base(invert, lib.octaveIsSimple)) {
            has := has[lib.base(invert, lib.octaveIsSimple) := true];
          }
          i := i + 1;
        }
        assert intervals[..length] == intervals;
        if length == 3 {
          r := if AllSet(has, slots) then "triad" else "trichord";
        } else {
          r := if AllSet(has, slots) then "tetrad" else "unknown";
        }
      } else {
        r := "unknown";
      }
    }

    /** `voicing(v)`: refill the voicing element by element and return the chord. */
    method SetVoicing(v: seq<Interval>) returns (self: Chord)
      modifies this
      ensures self == this
      ensures voicing == v && name == old(name)
    {
      var refilled: seq<Interval> := [];
      var i := 0;
      while i < |v|
        invariant 0 <= i <= |v|
        invariant refilled == v[..i]
      {
        refilled := refilled + [v[i]];
        i := i + 1;
      }
      voicing := refilled;
      self := this;
    }

    /** `resetVoicing()`: back to the parsed intervals. */
    method ResetVoicing()
      modifies this
      ensures voicing == intervals && name == old(name)
    {
      voicing := intervals;
    }

    /** A new chord with symbol `symbol` on a fresh root `i` above this one's, unless that root has no name. */
    method Rooted(i: Interval, symbol: string, env: Env) returns (r: Result<Chord>)
      ensures var at := PitchAt(root.coord, i);
        (r.Ok? <==> Spelled(at))
        && (r.Ok? ==> fresh(r.value) && fresh(r.value.root) && BuiltOn(r.value, at, symbol, env))
        && (r.Err? ==> r.message == UndefinedName)
    {
      var p := new Pitch(PitchAt(root.coord, i));
      if Spelled(p.coord) {
        var c := new Chord(p, symbol, env);
        r := Ok(c);
      } else {
        r := Err(UndefinedName);
      }
    }

    /** `dominant(additional)`: the chord a perfect fifth up. */
    method Dominant(additional: string, env: Env) returns (r: Result<Chord>)
      ensures var at := PitchAt(root.coord, PerfectFifth);
        (r.Ok? <==> Spelled(at))
        && (r.Ok? ==> fresh(r.value) && fresh(r.value.root) && BuiltOn(r.value, at, additional, env))
        && (r.Err? ==> r.message == UndefinedName)
    {
      r := Rooted(PerfectFifth, additional, env);
    }

    /** `subdominant(additional)`: the chord a perfect fourth up. */
    method Subdominant(additional: string, env: Env) returns (r: Result<Chord>)
      ensures var at := PitchAt(root.coord, PerfectFourth);
        (r.Ok? <==> Spelled(at))
        && (r.Ok? ==> fresh(r.value) && fresh(r.value.root) && BuiltOn(r.value, at, additional, env))
        && (r.Err? ==> r.message == UndefinedName)
    {
      r := Rooted(PerfectFourth, additional, env);
    }

    /** `interval(i)`: the same symbol on the root `i` away. */
    method AtInterval(i: Interval, env: Env) returns (r: Result<Chord>)
      ensures var at := PitchAt(root.coord, i);
        (r.Ok? <==> Spelled(at))
        && (r.Ok? ==> fresh(r.value) && fresh(r.value.root) && BuiltOn(r.value, at, symbol, env))
        && (r.Err? ==> r.message == UndefinedName)
    {
      r := Rooted(i, symbol, env);
    }

    /**
     * `parallel()`: only a triad that is neither diminished nor augmented has
     * one.  The new root is a minor third above (the 'down' argument is
     * ignored by `Pitch.interval`), minor when this chord is major.
     */
    method Parallel(env: Env) returns (r: Result<Chord>)
      ensures var q := Quality(env.lib);
        ChordTypeOf(intervals, env.lib) != "triad" || q == "diminished" || q == "augmented" ==>
          r == Err(NoParallel)
      ensures var q, at, minor := Quality(env.lib), PitchAt(root.coord, MinorThird), if IsMajor(env.lib) then "m" else "";
        ChordTypeOf(intervals, env.lib) == "triad" && q != "diminished" && q != "augmented" ==>
          (r.Ok? <==> Spelled(at))
          && (r.Ok? ==> fresh(r.value) && fresh(r.value.root) && BuiltOn(r.value, at, minor, env))
          && (r.Err? ==> r.message == UndefinedName)
    {
      var quality := Quality(env.lib);
      var kind := ChordType(env.lib);
      if kind != "triad" || quality == "diminished" || quality == "augmented" {
        return Err(NoParallel);
      }
      if IsMajor(env.lib) {
        r := Rooted(MinorThird, "m", env);
      } else {
        r := Rooted(MinorThird, "", env);
      }
    }

    /**
     * `parallel()` as evidently intended: the relative minor a minor third
     * below a major triad, the relative major a minor third above a minor
     * one, with the triad test of `CorrectedChordType`.
     */
    method Relative(env: Env) returns (r: Result<Chord>)
      ensures var q := Quality(env.lib);
        CorrectedChordType(intervals, env.lib) != "triad" || q == "diminished" || q == "augmented" ==>
          r == Err(NoParallel)
      ensures var q := Quality(env.lib);
        var at := PitchAt(root.coord, if IsMajor(env.lib) then MinorThirdDown else MinorThird);
        var minor := if IsMajor(env.lib) then "m" else "";
        CorrectedChordType(intervals, env.lib) == "triad" && q != "diminished" && q != "augmented" ==>
          (r.Ok? <==> Spelled(at))
          && (r.Ok? ==> fresh(r.value) && fresh(r.value.root) && BuiltOn(r.value, at, minor, env))
          && (r.Err? ==> r.message == UndefinedName)
    {
      var quality := Quality(env.lib);
      var kind := CorrectedChordType(intervals, env.lib);
      if kind != "triad" || quality == "diminished" || quality == "augmented" {
        return Err(NoParallel);
      }
      if IsMajor(env.lib) {
        r := Rooted(MinorThirdDown, "m", env);
      } else {
        r := Rooted(MinorThird, "", env);
      }
    }

    /**
     * `transpose(i)`: moves the shared root pitch, then renames the chord;
     * when the new root has no name the renaming throws after the move.
     */
    method Transpose(i: Interval) returns (r: Result<Chord>)
      modifies this, root
      ensures root.coord == PitchAt(old(root.coord), i)
      ensures voicing == old(voicing)
      ensures Spelled(root.coord) ==> r == Ok(this) && name == ChordName(root.coord, symbol)
      ensures !Spelled(root.coord) ==> r == Err(UndefinedName) && name == old(name)
    {
      var moved := root.Transpose(i);
      if Spelled(root.coord) {
        name := ChordName(root.coord, symbol);
        r := Ok(this);
      } else {
        r := Err(UndefinedName);
      }
    }
  }

  /**
   * The state `new Chord(root, symbol)` leaves on a root at `at`: its name,
   * the intervals the parser gives for the symbol's head, and the voicing
   * built from them.
   */
  predicate BuiltOn(c: Chord, at: Coord, symbol: string, env: Env)
    reads c, c.root
  {
    c.root.coord == at && c.symbol == symbol && Spelled(at)
    && c.name == ChordName(at, symbol)
    && c.intervals == env.chordIntervals(ParsedSymbol(symbol))
    && c.voicing == InitialVoicing(at, BassText(symbol), c.intervals, env)
  }

  /** A chord is never both major and minor. */
  lemma MajorMinorExclusive(c: Chord, lib: IntervalLib)
    ensures !(c.IsMajor(lib) && c.IsMinor(lib))
  {
  }

  /**
   * As written, the parallel of a major triad on a natural C is rooted on
   * the E flat of the same octave, a minor third above, instead of on the
   * A of its relative minor.
   */
  lemma ParallelRootAsWritten(p: Coord)
    requires Spelled(p) && Name(p) == Some("c") && Accidental(p) == Some("") && Octave(p) >= 0
    ensures var q := PitchAt(p, MinorThird);
      Spelled(q) && Name(q) == Some("e") && Accidental(q) == Some("b") && Octave(q) == Octave(p)
  {
    assert Tones[0] == "c" && Accidentals[2] == "";
    SpellingParts(p, 0, 0);
    assert MinorThird.coord == Coord(2, 3);
    var o: nat := Octave(p);
    SpelledAs(PitchAt(p, MinorThird), o, 2, -1);
    assert Tones[2] == "e" && Accidentals[1] == "b";
  }

  /** The relative minor of a major triad on a natural C is rooted on the A below. */
  lemma RelativeRoot(p: Coord)
    requires Spelled(p) && Name(p) == Some("c") && Accidental(p) == Some("") && Octave(p) >= 1
    ensures var q := PitchAt(p, MinorThirdDown);
      Spelled(q) && Name(q) == Some("a") && Accidental(q) == Some("") && Octave(q) == Octave(p) - 1
  {
    assert Tones[0] == "c" && Accidentals[2] == "";
    SpellingParts(p, 0, 0);
    assert MinorThirdDown.coord == Coord(-2, -3);
    SpelledAs(PitchAt(p, MinorThirdDown), Octave(p) - 1, 5, 0);
    assert Tones[5] == "a";
  }

  /**
   * The relative of the relative is rooted where the chord started, which
   * the as-written pair of minor thirds up never is.
   */
  lemma RelativeRootsReturn(p: Coord)
    ensures PitchAt(PitchAt(p, MinorThirdDown), MinorThird) == p
    ensures PitchAt(PitchAt(p, MinorThird), MinorThird) != p
  {
    IntervalsTable();
  }
}
