/**
 * The pitch model: a pitch is its MIDI height (C4 = 60), its pitch class is
 * the height modulo 12, and a voice range is a closed interval of heights.
 */
module Pitches {

  type PitchClass = c: int | 0 <= c < 12

  /** The class of a height, independent of its octave. */
  function Class(h: int): PitchClass
  {
    h % 12
  }

  /** The octave number of a height in scientific pitch notation (C4 = 60 lies in octave 4). */
  function Octave(h: int): int
  {
    h / 12 - 1
  }

  /** The height of the pitch written as a class name followed by an octave number. */
  function Spell(pc: PitchClass, octave: int): (h: int)
    ensures Class(h) == pc && Octave(h) == octave
    ensures forall g :: Class(g) == pc && Octave(g) == octave ==> g == h
  {
    12 * (octave + 1) + pc
  }

  /** A closed interval of heights, low and high included. */
  datatype Range = Range(low: int, high: int)
  {
    predicate Contains(h: int)
    {
      low <= h <= high
    }
  }

  ghost predicate StrictlyAscending(s: seq<int>)
  {
    forall i, j :: 0 <= i < j < |s| ==> s[i] < s[j]
  }

  lemma OctaveMonotone(g: int, h: int)
    requires g <= h
    ensures Octave(g) <= Octave(h)
  {
  }

  /**
   * Every height of class `pc` inside `r`, lowest first: the pitch of that
   * class is tried in each octave from the octave of `r.low` to the octave of
   * `r.high`, and kept when `r` contains it. Empty when no octave fits.
   */
  function VoiceNote(pc: PitchClass, r: Range): (ns: seq<int>)
    ensures forall h :: h in ns <==> r.Contains(h) && Class(h) == pc
    ensures StrictlyAscending(ns)
  {
    forall h | r.Contains(h) ensures Octave(r.low) <= Octave(h) <= Octave(r.high) {
      OctaveMonotone(r.low, h);
      OctaveMonotone(h, r.high);
    }
    OctaveScan(pc, r, Octave(r.low), Octave(r.high))
  }

  /** The loop of `VoiceNote` over the octaves `octave` .. `last`. */
  function OctaveScan(pc: PitchClass, r: Range, octave: int, last: int): (ns: seq<int>)
    ensures forall h :: h in ns <==> r.Contains(h) && Class(h) == pc && octave <= Octave(h) <= last
    ensures StrictlyAscending(ns)
    decreases last - octave
  {
    if octave > last then []
    else
      var n := Spell(pc, octave);
      var rest := OctaveScan(pc, r, octave + 1, last);
      assert forall h :: h in rest ==> n < h;
      var head := if r.Contains(n) then [n] else [];
      assert forall i, j :: 0 <= i < j < |head + rest| ==> (head + rest)[i] < (head + rest)[j] by {
        forall i, j | 0 <= i < j < |head + rest| ensures (head + rest)[i] < (head + rest)[j] {
          if i < |head| { assert (head + rest)[j] in rest; }
        }
      }
      head + rest
  }
}
