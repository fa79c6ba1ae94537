/**
 * The voicing generator: every assignment of a chord's pitch classes to the
 * four voices (bass, tenor, alto, soprano) within the voice ranges, with
 * adjacent upper voices at most an octave apart, under the doubling rules.
 * Each generator is a function returning its results in the order the
 * source yields them.
 */
module Voicings {
  import opened Wrappers
  import opened Pitches

  const SOPRANO_RANGE := Range(60, 79)  // C4 .. G5
  const ALTO_RANGE := Range(55, 72)     // G3 .. C5
  const TENOR_RANGE := Range(48, 67)    // C3 .. G4
  const BASS_RANGE := Range(41, 60)     // F2 .. C4
  const OCTAVE := 12                    // the interval P8

  /** A four-part chord, lowest voice first (the order of a sorted chord's pitches). */
  datatype Voicing = Voicing(bass: int, tenor: int, alto: int, soprano: int)
  {
    /** The pitch of voice `k`: 0 bass, 1 tenor, 2 alto, 3 soprano. */
    function At(k: nat): int
      requires k < 4
    {
      if k == 0 then bass else if k == 1 then tenor else if k == 2 then alto else soprano
    }

    function Upper(): Triad
    {
      Triad(tenor, alto, soprano)
    }

    function Classes(): seq<PitchClass>
    {
      [Class(bass), Class(tenor), Class(alto), Class(soprano)]
    }
  }

  /** The three upper voices, built before the bass is chosen. */
  datatype Triad = Triad(tenor: int, alto: int, soprano: int)
  {
    function Classes(): seq<PitchClass>
    {
      [Class(tenor), Class(alto), Class(soprano)]
    }

    /** The lowest of the three pitches. */
    function Lowest(): int
    {
      Min(Min(tenor, alto), soprano)
    }
  }

  /**
   * A chord as the harmony interpreter describes it: its pitch classes with
   * the bass first, the classes playing root, third, fifth and (for a
   * seventh chord) seventh, its inversion and its roman numeral.
   */
  datatype Chord = Chord(
    notes: seq<PitchClass>,
    root: PitchClass,
    third: PitchClass,
    fifth: PitchClass,
    seventh: Option<PitchClass>,
    inversion: nat,
    numeral: string)
  {
    predicate ContainsSeventh()
    {
      seventh.Some?
    }

    /** A seventh chord names four classes, a triad three. */
    predicate Shaped()
    {
      |notes| == if ContainsSeventh() then 4 else 3
    }
  }

  function Min(x: int, y: int): int { if x <= y then x else y }
  function Max(x: int, y: int): int { if x <= y then y else x }

  /** The invariant every four-part voicing keeps: order, spacing and ranges. */
  predicate Voiced(v: Voicing)
  {
    && v.bass <= v.tenor <= v.alto <= v.soprano
    && v.alto - v.tenor <= OCTAVE
    && v.soprano - v.alto <= OCTAVE
    && BASS_RANGE.Contains(v.bass)
    && TENOR_RANGE.Contains(v.tenor)
    && ALTO_RANGE.Contains(v.alto)
    && SOPRANO_RANGE.Contains(v.soprano)
  }

  /** Where the alto may go under a soprano: within an octave below it and in the alto range. */
  function AltoBound(soprano: int): Range
  {
    Range(Max(ALTO_RANGE.low, soprano - OCTAVE), Min(ALTO_RANGE.high, soprano))
  }

  /** Where the tenor may go under an alto: within an octave below it and in the tenor range. */
  function TenorBound(alto: int): Range
  {
    Range(Max(TENOR_RANGE.low, alto - OCTAVE), Min(TENOR_RANGE.high, alto))
  }

  /** The upper voices of `x` lie where the generator places them. */
  predicate Placed(x: Triad)
  {
    SOPRANO_RANGE.Contains(x.soprano) && AltoBound(x.soprano).Contains(x.alto) && TenorBound(x.alto).Contains(x.tenor)
  }

  /** The generator's bounds, applied voice by voice, are exactly the order, spacing and range invariant. */
  lemma VoicedByPlacement(v: Voicing)
    ensures Voiced(v) <==> Placed(v.Upper()) && BASS_RANGE.Contains(v.bass) && v.bass <= v.Upper().Lowest()
  {
  }

  /** The six orderings of three classes, in the order `itertools.permutations` lists them. */
  function Permutations(xs: seq<PitchClass>): (ps: seq<seq<PitchClass>>)
    requires |xs| == 3
    ensures |ps| == 6
    ensures forall p :: p in ps ==> |p| == 3
  {
    var a, b, c := xs[0], xs[1], xs[2];
    [[a, b, c], [a, c, b], [b, a, c], [b, c, a], [c, a, b], [c, b, a]]
  }

  /** A list of three classes holds exactly those three. */
  lemma MultisetOfThree(s: seq<PitchClass>)
    requires |s| == 3
    ensures multiset(s) == multiset{s[0], s[1], s[2]}
  {
    assert s == [s[0], s[1], s[2]];
  }

  lemma SwapFirst(x: PitchClass, y: PitchClass, z: PitchClass)
    ensures multiset{x, y, z} == multiset{y, x, z}
  {
  }

  lemma SwapLast(x: PitchClass, y: PitchClass, z: PitchClass)
    ensures multiset{x, y, z} == multiset{x, z, y}
  {
  }

  /** Each of the six orderings holds the three classes, each as often. */
  lemma PermutationsSound(xs: seq<PitchClass>, p: seq<PitchClass>)
    requires |xs| == 3 && p in Permutations(xs)
    ensures multiset(p) == multiset(xs)
  {
    var a, b, c := xs[0], xs[1], xs[2];
    MultisetOfThree(xs);
    MultisetOfThree(p);
    var i :| 0 <= i < 6 && Permutations(xs)[i] == p;
    if i == 0 {
      assert p == [a, b, c];
    } else if i == 1 {
      assert p == [a, c, b];
      SwapLast(a, b, c);
    } else if i == 2 {
      assert p == [b, a, c];
      SwapFirst(a, b, c);
    } else if i == 3 {
      assert p == [b, c, a];
      SwapFirst(a, b, c);
      SwapLast(b, a, c);
    } else if i == 4 {
      assert p == [c, a, b];
      SwapLast(a, b, c);
      SwapFirst(a, c, b);
    } else {
      assert p == [c, b, a];
      SwapLast(a, b, c);
      SwapFirst(a, c, b);
      SwapLast(c, a, b);
    }
  }

  /** Every rearrangement of the three classes is among the six orderings. */
  lemma PermutationsComplete(xs: seq<PitchClass>, p: seq<PitchClass>)
    requires |xs| == 3 && multiset(p) == multiset(xs)
    ensures p in Permutations(xs)
  {
    assert |p| == |multiset(p)| == 3;
    MultisetOfThree(xs);
    MultisetOfThree(p);
    assert p == [p[0], p[1], p[2]];
  }

  /** The innermost loop: each tenor in `tenors` under a fixed alto and soprano. */
  function PlaceTenors(alto: int, soprano: int, tenors: seq<int>): (r: seq<Triad>)
    ensures forall x :: x in r <==> x.tenor in tenors && x.alto == alto && x.soprano == soprano
  {
    if tenors == [] then []
    else [Triad(tenors[0], alto, soprano)] + PlaceTenors(alto, soprano, tenors[1..])
  }

  /** The middle loop: each alto in `altos` under a fixed soprano, then every tenor of class `tenor` it admits. */
  function PlaceAltos(tenor: PitchClass, soprano: int, altos: seq<int>): (r: seq<Triad>)
    ensures forall x :: x in r <==>
      x.alto in altos && x.soprano == soprano && TenorBound(x.alto).Contains(x.tenor) && Class(x.tenor) == tenor
  {
    if altos == [] then []
    else
      PlaceTenors(altos[0], soprano, VoiceNote(tenor, TenorBound(altos[0])))
      + PlaceAltos(tenor, soprano, altos[1..])
  }

  /** The outer loop: each soprano in `sopranos`, then every alto of class `alto` it admits. */
  function PlaceSopranos(tenor: PitchClass, alto: PitchClass, sopranos: seq<int>): (r: seq<Triad>)
    ensures forall x :: x in r <==>
      && x.soprano in sopranos
      && AltoBound(x.soprano).Contains(x.alto) && Class(x.alto) == alto
      && TenorBound(x.alto).Contains(x.tenor) && Class(x.tenor) == tenor
  {
    if sopranos == [] then []
    else
      PlaceAltos(tenor, sopranos[0], VoiceNote(alto, AltoBound(sopranos[0])))
      + PlaceSopranos(tenor, alto, sopranos[1..])
  }

  /** Every placement of the classes `p` (tenor, alto, soprano) in the upper voices. */
  function VoicePermutation(p: seq<PitchClass>): (r: seq<Triad>)
    requires |p| == 3
    ensures forall x :: x in r <==> Placed(x) && x.Classes() == p
  {
    assert p == [p[0], p[1], p[2]];
    PlaceSopranos(p[0], p[1], VoiceNote(p[2], SOPRANO_RANGE))
  }

  function VoicePermutations(ps: seq<seq<PitchClass>>): (r: seq<Triad>)
    requires forall p :: p in ps ==> |p| == 3
    ensures forall x :: x in r <==> Placed(x) && x.Classes() in ps
  {
    if ps == [] then []
    else VoicePermutation(ps[0]) + VoicePermutations(ps[1..])
  }

  /**
   * The upper voices for three classes: every ordering of the classes over
   * tenor, alto and soprano, each placed in every admissible way.
   */
  function VoiceTriadUnordered(names: seq<PitchClass>): (r: seq<Triad>)
    requires |names| == 3
    ensures forall x :: x in r <==> Placed(x) && multiset(x.Classes()) == multiset(names)
  {
    forall x: Triad ensures x.Classes() in Permutations(names) <==> multiset(x.Classes()) == multiset(names) {
      if x.Classes() in Permutations(names) {
        PermutationsSound(names, x.Classes());
      }
      if multiset(x.Classes()) == multiset(names) {
        PermutationsComplete(names, x.Classes());
      }
    }
    VoicePermutations(Permutations(names))
  }

  /** Each bass of `basses` that lies at or below the lowest upper voice of `x`. */
  function BassesUnder(x: Triad, basses: seq<int>): (r: seq<Voicing>)
    ensures forall v :: v in r <==> v.bass in basses && v.bass <= x.Lowest() && v.Upper() == x
  {
    if basses == [] then []
    else
      (if basses[0] <= x.Lowest() then [Voicing(basses[0], x.tenor, x.alto, x.soprano)] else [])
      + BassesUnder(x, basses[1..])
  }

  function AddBasses(bass: PitchClass, triads: seq<Triad>): (r: seq<Voicing>)
    ensures forall v :: v in r <==>
      v.Upper() in triads && BASS_RANGE.Contains(v.bass) && Class(v.bass) == bass && v.bass <= v.Upper().Lowest()
  {
    if triads == [] then []
    else BassesUnder(triads[0], VoiceNote(bass, BASS_RANGE)) + AddBasses(bass, triads[1..])
  }

  /**
   * The four-part voicings of four classes, the first of which is the bass:
   * exactly the voicings keeping the order, spacing and range invariant whose
   * bass has the first class and whose upper voices carry the other three in
   * some order.
   */
  function VoiceChordNotes(names: seq<PitchClass>): (r: seq<Voicing>)
    requires |names| == 4
    ensures forall v :: v in r <==>
      Voiced(v) && Class(v.bass) == names[0] && multiset(v.Upper().Classes()) == multiset(names[1..])
  {
    forall v: Voicing ensures Voiced(v) <==> Placed(v.Upper()) && BASS_RANGE.Contains(v.bass) && v.bass <= v.Upper().Lowest() {
      VoicedByPlacement(v);
    }
    AddBasses(names[0], VoiceTriadUnordered(names[1..]))
  }

  /**
   * The class lists to voice for a chord: a seventh chord as it is; a triad
   * in second inversion with its bass (the fifth) doubled; any other triad
   * with its root, third or fifth doubled and, for a root-position I, also
   * three roots and the third with no fifth.
   */
  function Doublings(d: Chord): (ms: seq<seq<PitchClass>>)
    requires d.Shaped()
    ensures forall m :: m in ms ==> |m| == 4
  {
    if d.ContainsSeventh() then [d.notes]
    else if d.inversion == 2 then [d.notes + [d.notes[0]]]
    else
      [d.notes + [d.root], d.notes + [d.third], d.notes + [d.fifth]]
      + (if d.numeral == "I" && d.inversion == 0 then [[d.root, d.root, d.root, d.third]] else [])
  }

  function VoiceEach(ms: seq<seq<PitchClass>>): (r: seq<Voicing>)
    requires forall m :: m in ms ==> |m| == 4
    ensures forall v :: v in r <==> exists m :: m in ms && v in VoiceChordNotes(m)
  {
    if ms == [] then []
    else VoiceChordNotes(ms[0]) + VoiceEach(ms[1..])
  }

  /** Whether the bass and upper voices of `v` carry the classes of `m` (bass first). */
  ghost predicate Realizes(v: Voicing, m: seq<PitchClass>)
    requires |m| == 4
  {
    Class(v.bass) == m[0] && multiset(v.Upper().Classes()) == multiset(m[1..])
  }

  /**
   * All four-part voicings of a chord, over all its doublings: exactly the
   * voicings that keep the order, spacing and range invariant and realize
   * one of the chord's doublings.
   */
  function VoiceChord(d: Chord): (r: seq<Voicing>)
    requires d.Shaped()
    ensures forall v :: v in r <==> Voiced(v) && exists m :: m in Doublings(d) && Realizes(v, m)
  {
    VoiceEach(Doublings(d))
  }

  /** A shaped chord as the harmony interpreter produces it: the root in the bass in root position, the third among its notes. */
  predicate Consistent(d: Chord)
    requires d.Shaped()
  {
    (d.inversion == 0 ==> d.notes[0] == d.root) && d.third in d.notes
  }

  /** A voicing realizing a class list carries those classes, each as often. */
  lemma RealizesRearranges(v: Voicing, m: seq<PitchClass>)
    requires |m| == 4 && Realizes(v, m)
    ensures multiset(v.Classes()) == multiset(m)
  {
    assert v.Classes() == [Class(v.bass)] + v.Upper().Classes();
    assert m == [m[0]] + m[1..];
  }

  /** A class of `xs` occurs in every rearrangement of `xs`. */
  lemma RearrangedMember(p: seq<PitchClass>, xs: seq<PitchClass>, c: PitchClass)
    requires multiset(p) == multiset(xs) && c in xs
    ensures c in p
  {
    assert c in multiset(xs);
  }

  /** The doubling a voicing of `d` realizes, with the classes it then carries. */
  lemma DoublingOf(d: Chord, v: Voicing) returns (m: seq<PitchClass>)
    requires d.Shaped() && v in VoiceChord(d)
    ensures m in Doublings(d) && |m| == 4
    ensures Class(v.bass) == m[0] && multiset(v.Classes()) == multiset(m)
  {
    m :| m in Doublings(d) && Realizes(v, m);
    RealizesRearranges(v, m);
  }

  /**
   * The doubling rules: a seventh chord is voiced as its four classes; a
   * second-inversion triad with its bass class added; any other triad with
   * its root, its third or its fifth added, and a root-position I also as
   * three roots and the third.
   */
  lemma DoublingRules(d: Chord, m: seq<PitchClass>)
    requires d.Shaped()
    ensures d.ContainsSeventh() ==> (m in Doublings(d) <==> m == d.notes)
    ensures !d.ContainsSeventh() && d.inversion == 2 ==> (m in Doublings(d) <==> m == d.notes + [d.notes[0]])
    ensures !d.ContainsSeventh() && d.inversion != 2 ==>
      (m in Doublings(d) <==>
        || m == d.notes + [d.root]
        || m == d.notes + [d.third]
        || m == d.notes + [d.fifth]
        || (d.numeral == "I" && d.inversion == 0 && m == [d.root, d.root, d.root, d.third]))
  {
  }

  /**
   * What each doubling adds to the chord's classes: nothing for a seventh
   * chord; a second copy of the bass class for a second-inversion triad; a
   * second copy of the root, third or fifth for any other triad, or, for a
   * root-position I only, three roots and the third. Every doubling but the
   * last keeps the chord's bass class first.
   */
  lemma DoublingMultisets(d: Chord, m: seq<PitchClass>)
    requires d.Shaped() && m in Doublings(d)
    ensures |m| == 4
    ensures d.ContainsSeventh() ==> multiset(m) == multiset(d.notes)
    ensures !d.ContainsSeventh() && d.inversion == 2 ==> multiset(m) == multiset(d.notes) + multiset{d.notes[0]}
    ensures !d.ContainsSeventh() && d.inversion != 2 ==>
      || multiset(m) == multiset(d.notes) + multiset{d.root}
      || multiset(m) == multiset(d.notes) + multiset{d.third}
      || multiset(m) == multiset(d.notes) + multiset{d.fifth}
      || (d.numeral == "I" && d.inversion == 0 && multiset(m) == multiset{d.root, d.root, d.root, d.third})
    ensures m[0] == d.notes[0] || m == [d.root, d.root, d.root, d.third]
  {
    DoublingRules(d, m);
  }

  /**
   * The classes a voicing of a chord sounds: a seventh chord's four classes
   * once each; a second-inversion triad's classes with its bass class twice;
   * any other triad's classes with its root, third or fifth twice or, for a
   * root-position I only, three roots and the third.
   */
  lemma {:induction false} VoicingDoubling(d: Chord, v: Voicing)
    requires d.Shaped() && v in VoiceChord(d)
    ensures d.ContainsSeventh() ==> multiset(v.Classes()) == multiset(d.notes)
    ensures !d.ContainsSeventh() && d.inversion == 2 ==> multiset(v.Classes()) == multiset(d.notes) + multiset{d.notes[0]}
    ensures !d.ContainsSeventh() && d.inversion != 2 ==>
      || multiset(v.Classes()) == multiset(d.notes) + multiset{d.root}
      || multiset(v.Classes()) == multiset(d.notes) + multiset{d.third}
      || multiset(v.Classes()) == multiset(d.notes) + multiset{d.fifth}
      || (d.numeral == "I" && d.inversion == 0 && multiset(v.Classes()) == multiset{d.root, d.root, d.root, d.third})
  {
    var m := DoublingOf(d, v);
    DoublingMultisets(d, m);
  }

  /** A second-inversion triad whose bass is its fifth sounds the fifth in at least two voices. */
  lemma {:induction false} SecondInversionDoublesFifth(d: Chord, v: Voicing)
    requires d.Shaped() && !d.ContainsSeventh() && d.inversion == 2 && d.notes[0] == d.fifth
    requires v in VoiceChord(d)
    ensures multiset(v.Classes())[d.fifth] >= 2
  {
    VoicingDoubling(d, v);
    assert d.fifth in multiset(d.notes);
  }

  /** Every doubling of a consistent chord keeps its bass class first and contains its third. */
  lemma DoublingKeepsBassAndThird(d: Chord, m: seq<PitchClass>)
    requires d.Shaped() && Consistent(d) && m in Doublings(d)
    ensures m[0] == d.notes[0] && d.third in m
  {
    DoublingRules(d, m);
    var i :| 0 <= i < |d.notes| && d.notes[i] == d.third;
    if m != [d.root, d.root, d.root, d.third] {
      assert m[i] == d.third;
    }
  }

  /** Every voicing of a consistent chord has the chord's bass class in the bass and sounds its third. */
  lemma {:induction false} VoicingBassAndThird(d: Chord, v: Voicing)
    requires d.Shaped() && Consistent(d) && v in VoiceChord(d)
    ensures Class(v.bass) == d.notes[0]
    ensures d.third in v.Classes()
  {
    var m := DoublingOf(d, v);
    DoublingKeepsBassAndThird(d, m);
    RearrangedMember(v.Classes(), m, d.third);
  }
}
