/**
 * The transition cost between two consecutive voicings: an overlap penalty,
 * weighted squared leaps, per-pair parallel-interval and similar-motion
 * terms, the resolution of a chordal seventh and the resolution of the
 * leading tone from dominant to tonic. `TransitionCost` states the score as
 * a sum of terms; the method `Cost` computes it the way the source does, by
 * accumulating a running score.
 */
module Costs {
  import opened Wrappers
  import opened Pitches
  import opened Voicings

  /** A key, reduced to the two classes the cost looks at. */
  datatype Key = Key(tonic: PitchClass, dominant: PitchClass)

  function Abs(x: int): nat { if x < 0 then -x else x }

  function Square(x: int): nat { x * x }

  /**
   * Some voice of `b` crosses past a neighbouring voice of `a`: the bass above
   * the old tenor, the tenor below the old bass or above the old alto, the
   * alto below the old tenor or above the old soprano, or the soprano below
   * the old alto.
   */
  predicate Overlapping(a: Voicing, b: Voicing)
  {
    || b.bass > a.tenor
    || b.tenor < a.bass || b.tenor > a.alto
    || b.alto < a.tenor || b.alto > a.soprano
    || b.soprano < a.alto
  }

  function OverlapPenalty(a: Voicing, b: Voicing): nat
  {
    if Overlapping(a, b) then 50 else 0
  }

  /** Squared leaps: the bass's halved (rounded down) before squaring, the soprano's divided by 10 after. */
  function LeapPenalty(a: Voicing, b: Voicing): nat
  {
    Square(Abs(a.bass - b.bass) / 2)
    + Square(Abs(a.tenor - b.tenor))
    + Square(Abs(a.alto - b.alto))
    + Square(Abs(a.soprano - b.soprano)) / 10
  }

  /** The lower voice `i` and upper voice `j` both rise or both fall. */
  predicate SimilarMotion(a: Voicing, b: Voicing, i: nat, j: nat)
    requires i < j < 4
  {
    (b.At(j) > a.At(j) && b.At(i) > a.At(i)) || (b.At(j) < a.At(j) && b.At(i) < a.At(i))
  }

  /** The interval from voice `i` up to voice `j`. */
  function Interval(v: Voicing, i: nat, j: nat): int
    requires i < j < 4
  {
    v.At(j) - v.At(i)
  }

  /** The terms for one pair of voices: parallel fifth 60, parallel octave or unison 100, similar motion 1. */
  function PairPenalty(a: Voicing, b: Voicing, i: nat, j: nat): nat
    requires i < j < 4
  {
    var i1, i2 := Interval(a, i, j), Interval(b, i, j);
    (if i1 % 12 == 7 && i2 % 12 == 7 then 60 else 0)
    + (if i1 % 12 == 0 && i2 % 12 == 0 then 100 else 0)
    + (if SimilarMotion(a, b, i, j) then 1 else 0)
  }

  /** The pair terms of lower voice `i` with upper voices `i+1 .. j-1`. */
  function RowPenalty(a: Voicing, b: Voicing, i: nat, j: nat): nat
    requires i < 4 && j <= 4
    decreases j
  {
    if j <= i + 1 then 0 else RowPenalty(a, b, i, j - 1) + PairPenalty(a, b, i, j - 1)
  }

  /** The pair terms of every lower voice below `i`. */
  function RowsPenalty(a: Voicing, b: Voicing, i: nat): nat
    requires i <= 4
  {
    if i == 0 then 0 else RowsPenalty(a, b, i - 1) + RowPenalty(a, b, i - 1, 4)
  }

  /** The pair terms over all six pairs of voices. */
  function MotionPenalty(a: Voicing, b: Voicing): nat
  {
    RowsPenalty(a, b, 4)
  }

  /** Voice `k` is the lowest voice of `v` sounding class `c`. */
  predicate FirstCarrier(v: Voicing, c: PitchClass, k: nat)
  {
    k < 4 && Class(v.At(k)) == c && forall j :: 0 <= j < k ==> Class(v.At(j)) != c
  }

  /** The lowest voice from `k` upward that sounds class `c`, if any. */
  function CarrierFrom(v: Voicing, c: PitchClass, k: nat): (r: Option<nat>)
    requires k <= 4
    ensures r.Some? ==> k <= r.value < 4 && Class(v.At(r.value)) == c
    ensures r.Some? ==> forall j :: k <= j < r.value ==> Class(v.At(j)) != c
    ensures r.None? ==> forall j :: k <= j < 4 ==> Class(v.At(j)) != c
    decreases 4 - k
  {
    if k == 4 then None
    else if Class(v.At(k)) == c then Some(k)
    else CarrierFrom(v, c, k + 1)
  }

  /** The voice whose pitch the lookup of a chord member finds: the lowest one sounding its class. */
  function Carrier(v: Voicing, c: PitchClass): (r: Option<nat>)
    ensures r.Some? ==> FirstCarrier(v, c, r.value)
    ensures r.None? <==> c !in v.Classes()
  {
    CarrierFrom(v, c, 0)
  }

  /** Only one voice is the lowest sounding a class. */
  lemma FirstCarrierUnique(v: Voicing, c: PitchClass, k: nat, m: nat)
    requires FirstCarrier(v, c, k) && FirstCarrier(v, c, m)
    ensures k == m
  {
  }

  /**
   * The chordal seventh of the first chord must fall by at most two
   * semitones or stay; otherwise 80. A chord without a seventh, or a voicing
   * that does not sound it, costs nothing here.
   */
  function SeventhPenalty(c1: Chord, a: Voicing, b: Voicing): (p: nat)
    ensures p == 0 || p == 80
  {
    if c1.seventh.None? then 0
    else match Carrier(a, c1.seventh.value)
      case None => 0
      case Some(k) =>
        var delta := b.At(k) - a.At(k);
        if delta < -2 || delta > 0 then 80 else 0
  }

  /** The seventh rule fires exactly when the lowest voice sounding the seventh rises or falls by more than two semitones. */
  lemma SeventhRule(c1: Chord, a: Voicing, b: Voicing)
    ensures SeventhPenalty(c1, a, b) == 80 <==>
      exists s, k :: c1.seventh == Some(s) && FirstCarrier(a, s, k) && !(-2 <= b.At(k) - a.At(k) <= 0)
  {
    if c1.seventh.Some? {
      var r := Carrier(a, c1.seventh.value);
      forall s: PitchClass, k: nat | c1.seventh == Some(s) && FirstCarrier(a, s, k)
        ensures r == Some(k)
      {
        FirstCarrierUnique(a, s, k, r.value);
      }
    }
  }

  /** The first chord stands on the dominant and the second on the tonic. */
  predicate DominantToTonic(key: Key, c1: Chord, c2: Chord)
  {
    c1.root == key.dominant && c2.root == key.tonic
  }

  /** The leading-tone rule can find the voice carrying the first chord's third. */
  predicate LeadingToneDefined(key: Key, c1: Chord, a: Voicing, c2: Chord)
  {
    DominantToTonic(key, c1, c2) ==> c1.third in a.Classes()
  }

  /**
   * From dominant to tonic, the voice carrying the dominant's third (the
   * leading tone) must rise a semitone, or fall four semitones unless it is
   * the soprano; otherwise 80.
   */
  function LeadingTonePenalty(key: Key, c1: Chord, a: Voicing, c2: Chord, b: Voicing): (p: nat)
    requires LeadingToneDefined(key, c1, a, c2)
    ensures p == 0 || p == 80
  {
    if !DominantToTonic(key, c1, c2) then 0
    else
      var k := Carrier(a, c1.third).value;
      var delta := b.At(k) - a.At(k);
      if delta != 1 && (delta != -4 || k == 3) then 80 else 0
  }

  /**
   * The leading-tone rule fires exactly from dominant to tonic when the
   * lowest voice sounding the dominant's third neither rises a semitone nor,
   * below the soprano, falls four.
   */
  lemma LeadingToneRule(key: Key, c1: Chord, a: Voicing, c2: Chord, b: Voicing)
    requires LeadingToneDefined(key, c1, a, c2)
    ensures LeadingTonePenalty(key, c1, a, c2, b) == 80 <==>
      && DominantToTonic(key, c1, c2)
      && exists k :: FirstCarrier(a, c1.third, k) && b.At(k) - a.At(k) != 1 && (b.At(k) - a.At(k) != -4 || k == 3)
  {
    if DominantToTonic(key, c1, c2) {
      var r := Carrier(a, c1.third);
      forall k: nat | FirstCarrier(a, c1.third, k)
        ensures r == Some(k)
      {
        FirstCarrierUnique(a, c1.third, k, r.value);
      }
    }
  }

  /** The score of moving from voicing `a` of chord `c1` to voicing `b` of chord `c2` in `key`. */
  function TransitionCost(key: Key, c1: Chord, a: Voicing, c2: Chord, b: Voicing): nat
    requires LeadingToneDefined(key, c1, a, c2)
  {
    OverlapPenalty(a, b) + LeapPenalty(a, b) + MotionPenalty(a, b)
    + SeventhPenalty(c1, a, b) + LeadingTonePenalty(key, c1, a, c2, b)
  }

  /** The score, accumulated term by term and pair by pair. */
  method Cost(key: Key, c1: Chord, a: Voicing, c2: Chord, b: Voicing) returns (score: int)
    requires LeadingToneDefined(key, c1, a, c2)
    ensures score == TransitionCost(key, c1, a, c2, b)
  {
    score := 0;

    if Overlapping(a, b) {
      score := score + 50;
    }

    score := score + Square(Abs(a.bass - b.bass) / 2);
    score := score + Square(Abs(a.tenor - b.tenor));
    score := score + Square(Abs(a.alto - b.alto));
    score := score + Square(Abs(a.soprano - b.soprano)) / 10;

    assert score == OverlapPenalty(a, b) + LeapPenalty(a, b);
    ghost var base := score;
    for i := 0 to 4
      invariant score == base + RowsPenalty(a, b, i)
    {
      for j := i + 1 to 4
        invariant score == base + RowsPenalty(a, b, i) + RowPenalty(a, b, i, j)
      {
        var t1, t2 := a.At(j), b.At(j);
        var b1, b2 := a.At(i), b.At(i);
        var i1, i2 := t1 - b1, t2 - b2;
        ghost var before := score;
        assert i1 == Interval(a, i, j) && i2 == Interval(b, i, j);
        if i1 % 12 == 7 && i2 % 12 == 7 {
          score := score + 60;
        }
        if i1 % 12 == 0 && i2 % 12 == 0 {
          score := score + 100;
        }
        if (t2 > t1 && b2 > b1) || (t2 < t1 && b2 < b1) {
          score := score + 1;
        }
        assert score == before + PairPenalty(a, b, i, j);
      }
    }
    assert score == base + MotionPenalty(a, b);

    if c1.seventh.Some? {
      var voice := Carrier(a, c1.seventh.value);
      if voice.Some? {
        var delta := b.At(voice.value) - a.At(voice.value);
        if delta < -2 || delta > 0 {
          score := score + 80;
        }
      }
    }
    assert score == base + MotionPenalty(a, b) + SeventhPenalty(c1, a, b);

    if c1.root == key.dominant && c2.root == key.tonic {
      var voice := Carrier(a, c1.third).value;
      var delta := b.At(voice) - a.At(voice);
      if delta != 1 && (delta != -4 || voice == 3) {
        score := score + 80;
      }
    }
  }

  /** The pair terms are one term for each of the six pairs of voices. */
  lemma {:induction false} MotionPenaltyPairs(a: Voicing, b: Voicing)
    ensures MotionPenalty(a, b) ==
      PairPenalty(a, b, 0, 1) + PairPenalty(a, b, 0, 2) + PairPenalty(a, b, 0, 3)
      + PairPenalty(a, b, 1, 2) + PairPenalty(a, b, 1, 3) + PairPenalty(a, b, 2, 3)
  {
    assert RowPenalty(a, b, 0, 2) == PairPenalty(a, b, 0, 1);
    assert RowPenalty(a, b, 0, 3) == PairPenalty(a, b, 0, 1) + PairPenalty(a, b, 0, 2);
    assert RowPenalty(a, b, 1, 3) == PairPenalty(a, b, 1, 2);
    assert RowsPenalty(a, b, 1) == RowPenalty(a, b, 0, 4);
    assert RowsPenalty(a, b, 2) == RowPenalty(a, b, 0, 4) + RowPenalty(a, b, 1, 4);
    assert RowsPenalty(a, b, 3) == RowsPenalty(a, b, 2) + RowPenalty(a, b, 2, 4);
  }

  /** Every pair of voices contributes its terms to the score. */
  lemma MotionCoversPair(a: Voicing, b: Voicing, i: nat, j: nat)
    requires i < j < 4
    ensures MotionPenalty(a, b) >= PairPenalty(a, b, i, j)
  {
    MotionPenaltyPairs(a, b);
  }

  /** Two voices a fifth apart (modulo octaves) in both chords cost at least 60. */
  lemma ParallelFifthsPenalised(key: Key, c1: Chord, a: Voicing, c2: Chord, b: Voicing, i: nat, j: nat)
    requires LeadingToneDefined(key, c1, a, c2) && i < j < 4
    requires Interval(a, i, j) % 12 == 7 && Interval(b, i, j) % 12 == 7
    ensures TransitionCost(key, c1, a, c2, b) >= 60
  {
    MotionCoversPair(a, b, i, j);
  }

  /** Two voices an octave or unison apart (modulo octaves) in both chords cost at least 100, whether or not they move. */
  lemma ParallelOctavesPenalised(key: Key, c1: Chord, a: Voicing, c2: Chord, b: Voicing, i: nat, j: nat)
    requires LeadingToneDefined(key, c1, a, c2) && i < j < 4
    requires Interval(a, i, j) % 12 == 0 && Interval(b, i, j) % 12 == 0
    ensures TransitionCost(key, c1, a, c2, b) >= 100
  {
    MotionCoversPair(a, b, i, j);
  }

  /** What a pair of voices standing still costs: 60 at a fifth, 100 at an octave or unison (modulo octaves). */
  function StaticPairPenalty(interval: int): nat
  {
    if interval % 12 == 7 then 60 else if interval % 12 == 0 then 100 else 0
  }

  lemma StaticPair(a: Voicing, i: nat, j: nat)
    requires i < j < 4
    ensures PairPenalty(a, a, i, j) == StaticPairPenalty(Interval(a, i, j))
  {
  }

  /**
   * Holding an ordered voicing of a chord costs exactly its fifths and
   * octaves: no overlap, no leap, no similar motion, no unresolved seventh,
   * and no dominant-to-tonic motion.
   */
  lemma {:induction false} SelfTransitionCost(key: Key, c: Chord, a: Voicing)
    requires a.bass <= a.tenor <= a.alto <= a.soprano
    requires key.tonic != key.dominant
    ensures TransitionCost(key, c, a, c, a) ==
      StaticPairPenalty(a.tenor - a.bass) + StaticPairPenalty(a.alto - a.bass) + StaticPairPenalty(a.soprano - a.bass)
      + StaticPairPenalty(a.alto - a.tenor) + StaticPairPenalty(a.soprano - a.tenor) + StaticPairPenalty(a.soprano - a.alto)
  {
    MotionPenaltyPairs(a, a);
    StaticPair(a, 0, 1);
    StaticPair(a, 0, 2);
    StaticPair(a, 0, 3);
    StaticPair(a, 1, 2);
    StaticPair(a, 1, 3);
    StaticPair(a, 2, 3);
    assert OverlapPenalty(a, a) == 0 && LeapPenalty(a, a) == 0;
    assert SeventhPenalty(c, a, a) == 0;
  }

  /** Every voice of `v` moved by `n` octaves. */
  function Shift(v: Voicing, n: int): Voicing
  {
    Voicing(v.bass + OCTAVE * n, v.tenor + OCTAVE * n, v.alto + OCTAVE * n, v.soprano + OCTAVE * n)
  }

  lemma ClassShift(h: int, n: int)
    ensures Class(h + OCTAVE * n) == Class(h)
  {
    var q := h / 12;
    assert h + 12 * n == 12 * (q + n) + h % 12;
  }

  /** Moving both voicings by the same number of octaves keeps the classes each voice sounds. */
  lemma ShiftClasses(v: Voicing, n: int)
    ensures Shift(v, n).Classes() == v.Classes()
    ensures forall k :: 0 <= k < 4 ==> Class(Shift(v, n).At(k)) == Class(v.At(k))
  {
    ClassShift(v.bass, n);
    ClassShift(v.tenor, n);
    ClassShift(v.alto, n);
    ClassShift(v.soprano, n);
  }

  lemma ShiftPair(a: Voicing, b: Voicing, n: int, i: nat, j: nat)
    requires i < j < 4
    ensures PairPenalty(Shift(a, n), Shift(b, n), i, j) == PairPenalty(a, b, i, j)
  {
    assert Interval(Shift(a, n), i, j) == Interval(a, i, j);
    assert Interval(Shift(b, n), i, j) == Interval(b, i, j);
  }

  lemma {:induction false} ShiftMotion(a: Voicing, b: Voicing, n: int)
    ensures MotionPenalty(Shift(a, n), Shift(b, n)) == MotionPenalty(a, b)
  {
    MotionPenaltyPairs(a, b);
    MotionPenaltyPairs(Shift(a, n), Shift(b, n));
    ShiftPair(a, b, n, 0, 1);
    ShiftPair(a, b, n, 0, 2);
    ShiftPair(a, b, n, 0, 3);
    ShiftPair(a, b, n, 1, 2);
    ShiftPair(a, b, n, 1, 3);
    ShiftPair(a, b, n, 2, 3);
  }

  lemma ShiftCarrier(v: Voicing, n: int, c: PitchClass)
    ensures Carrier(Shift(v, n), c) == Carrier(v, c)
  {
    ShiftClasses(v, n);
    assert CarrierFrom(Shift(v, n), c, 3) == CarrierFrom(v, c, 3);
    assert CarrierFrom(Shift(v, n), c, 2) == CarrierFrom(v, c, 2);
    assert CarrierFrom(Shift(v, n), c, 1) == CarrierFrom(v, c, 1);
  }

  lemma ShiftLeaps(a: Voicing, b: Voicing, n: int)
    ensures OverlapPenalty(Shift(a, n), Shift(b, n)) == OverlapPenalty(a, b)
    ensures LeapPenalty(Shift(a, n), Shift(b, n)) == LeapPenalty(a, b)
  {
    var a', b' := Shift(a, n), Shift(b, n);
    assert a'.bass - b'.bass == a.bass - b.bass && a'.tenor - b'.tenor == a.tenor - b.tenor;
    assert a'.alto - b'.alto == a.alto - b.alto && a'.soprano - b'.soprano == a.soprano - b.soprano;
  }

  lemma ShiftSeventh(c1: Chord, a: Voicing, b: Voicing, n: int)
    ensures SeventhPenalty(c1, Shift(a, n), Shift(b, n)) == SeventhPenalty(c1, a, b)
  {
    if c1.seventh.Some? {
      ShiftCarrier(a, n, c1.seventh.value);
    }
  }

  lemma ShiftLeadingTone(key: Key, c1: Chord, a: Voicing, c2: Chord, b: Voicing, n: int)
    requires LeadingToneDefined(key, c1, a, c2) && LeadingToneDefined(key, c1, Shift(a, n), c2)
    ensures LeadingTonePenalty(key, c1, Shift(a, n), c2, Shift(b, n)) == LeadingTonePenalty(key, c1, a, c2, b)
  {
    ShiftCarrier(a, n, c1.third);
  }

  /** The score depends only on intervals, motion and classes, so it survives moving both voicings by whole octaves. */
  lemma {:induction false} OctaveShiftInvariant(key: Key, c1: Chord, a: Voicing, c2: Chord, b: Voicing, n: int)
    requires LeadingToneDefined(key, c1, a, c2)
    ensures LeadingToneDefined(key, c1, Shift(a, n), c2)
    ensures TransitionCost(key, c1, Shift(a, n), c2, Shift(b, n)) == TransitionCost(key, c1, a, c2, b)
  {
    ShiftClasses(a, n);
    ShiftLeaps(a, b, n);
    ShiftMotion(a, b, n);
    ShiftSeventh(c1, a, b, n);
    ShiftLeadingTone(key, c1, a, c2, b, n);
  }
}
