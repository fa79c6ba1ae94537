/**
 * Voicing a chord progression by dynamic programming: a layered shortest
 * path in which layer `i` holds the voicings of the `i`-th chord, every
 * entry of the table keeps the cheapest cost of reaching its voicing and
 * the position of the predecessor that achieves it, and the answer is read
 * back from the cheapest entry of the last layer.
 *
 * An unreachable entry (the source's infinite cost) has no cost. Layers are
 * sequences indexed by position, so equal voicings are separate entries.
 */
module Progressions {
  import opened Wrappers
  import opened Pitches
  import opened Voicings
  import opened Costs

  /** A table entry: the cheapest cost found and the position of the predecessor giving it. */
  datatype Entry = Entry(cost: Option<int>, pred: Option<nat>)

  /** The chosen voicings, their positions in the layers, and the total score. */
  datatype Progression = Progression(voicings: seq<Voicing>, choice: seq<nat>, total: int)

  /** `x` lies strictly below `y`, a missing cost counting as infinite. */
  predicate Below(x: Option<int>, y: Option<int>)
  {
    match (x, y)
    case (Some(a), Some(b)) => a < b
    case (Some(_), None) => true
    case (None, _) => false
  }

  /** The leading-tone rule is defined on every consecutive pair of `w`. */
  predicate Fits(key: Key, chords: seq<Chord>, w: seq<Voicing>)
  {
    |w| <= |chords| && forall t {:trigger w[t]} :: 0 <= t < |w| - 1 ==> LeadingToneDefined(key, chords[t], w[t], chords[t + 1])
  }

  /** The score of voicing the first `|w|` chords as `w`: the sum of its consecutive transition costs. */
  function ProgressionCost(key: Key, chords: seq<Chord>, w: seq<Voicing>): int
    requires Fits(key, chords, w)
    decreases |w|
  {
    if |w| <= 1 then 0
    else
      assert Fits(key, chords, w[..|w| - 1]);
      ProgressionCost(key, chords, w[..|w| - 1])
      + TransitionCost(key, chords[|w| - 2], w[|w| - 2], chords[|w| - 1], w[|w| - 1])
  }

  /** Every voicing a layer may hand to the cost function makes the leading-tone rule defined. */
  predicate Admissible(key: Key, chords: seq<Chord>, layers: seq<seq<Voicing>>)
  {
    && |layers| == |chords|
    && forall i, u {:trigger layers[i][u]} :: 0 <= i < |layers| - 1 && 0 <= u < |layers[i]| ==>
         LeadingToneDefined(key, chords[i], layers[i][u], chords[i + 1])
  }

  /** `w` takes its `t`-th voicing from layer `t`. */
  predicate Through(layers: seq<seq<Voicing>>, w: seq<Voicing>)
  {
    |w| <= |layers| && forall t :: 0 <= t < |w| ==> w[t] in layers[t]
  }

  /** `p` names a position in each of the first `|p|` layers. */
  predicate IsPath(layers: seq<seq<Voicing>>, p: seq<nat>)
  {
    |p| <= |layers| && forall t :: 0 <= t < |p| ==> p[t] < |layers[t]|
  }

  /** The voicings a path names. */
  function Pick(layers: seq<seq<Voicing>>, p: seq<nat>): (w: seq<Voicing>)
    requires IsPath(layers, p)
    ensures |w| == |p| && forall t :: 0 <= t < |p| ==> w[t] == layers[t][p[t]]
  {
    seq(|p|, t requires 0 <= t < |p| => layers[t][p[t]])
  }

  /** The cost of a step from position `u` of layer `i` to position `v` of layer `i + 1`. */
  type StepCost = (nat, nat, nat) -> int

  /** The transition costs between the voicings of consecutive layers, as step costs. */
  function Steps(key: Key, chords: seq<Chord>, layers: seq<seq<Voicing>>): StepCost
    requires Admissible(key, chords, layers)
  {
    (i: nat, u: nat, v: nat) =>
      if i + 1 < |layers| && u < |layers[i]| && v < |layers[i + 1]|
      then TransitionCost(key, chords[i], layers[i][u], chords[i + 1], layers[i + 1][v])
      else 0
  }

  /** The sum of the step costs along the path `p`. */
  function PathCost(step: StepCost, p: seq<nat>): int
    decreases |p|
  {
    if |p| <= 1 then 0 else PathCost(step, p[..|p| - 1]) + step(|p| - 2, p[|p| - 2], p[|p| - 1])
  }

  /** The table has one row per filled layer and one entry per voicing of it. */
  predicate Sized(layers: seq<seq<Voicing>>, dp: seq<seq<Entry>>)
  {
    |dp| <= |layers| && forall i :: 0 <= i < |dp| ==> |dp[i]| == |layers[i]|
  }

  /**
   * `e` is what relaxing position `v` of layer `i` over the first `n`
   * entries of the previous row `prev` gives: no cost and no predecessor when
   * none of them has a cost; otherwise a predecessor `u` with a cost, whose
   * cost plus the step is at most that through any of them and strictly
   * below that through every earlier one.
   */
  predicate BestAmong(step: StepCost, prev: seq<Entry>, i: nat, v: nat, n: nat, e: Entry)
    requires 0 < i && n <= |prev|
  {
    match e.pred
    case None => e.cost.None? && forall u :: 0 <= u < n ==> prev[u].cost.None?
    case Some(u) =>
      && u < n && prev[u].cost.Some?
      && e.cost == Some(prev[u].cost.value + step(i - 1, u, v))
      && (forall w :: 0 <= w < n && prev[w].cost.Some? ==>
            e.cost.value <= prev[w].cost.value + step(i - 1, w, v))
      && (forall w :: 0 <= w < u && prev[w].cost.Some? ==>
            e.cost.value < prev[w].cost.value + step(i - 1, w, v))
  }

  /** The row before row `i`, empty for the first. */
  function Prev(dp: seq<seq<Entry>>, i: nat): seq<Entry>
    requires i <= |dp|
  {
    if i == 0 then [] else dp[i - 1]
  }

  /** `e` is the entry for position `v` of layer `i`: cost 0 and no predecessor in the first layer, the best relaxation over `prev` after it. */
  predicate EntryOk(step: StepCost, prev: seq<Entry>, i: nat, v: nat, e: Entry)
  {
    if i == 0 then e == Entry(Some(0), None) else BestAmong(step, prev, i, v, |prev|, e)
  }

  /** Every row of `dp` is filled as the recurrence prescribes. */
  predicate IsTable(step: StepCost, layers: seq<seq<Voicing>>, dp: seq<seq<Entry>>)
  {
    && Sized(layers, dp)
    && forall i, v {:trigger EntryOk(step, Prev(dp, i), i, v, dp[i][v])} ::
         0 <= i < |dp| && 0 <= v < |dp[i]| ==> EntryOk(step, Prev(dp, i), i, v, dp[i][v])
  }

  /** Consecutive positions of `p` are linked by the table's predecessors. */
  predicate Linked(dp: seq<seq<Entry>>, p: seq<nat>)
  {
    forall t {:trigger dp[t][p[t]]} :: 0 < t < |p| && t < |dp| && p[t] < |dp[t]| ==> dp[t][p[t]].pred == Some(p[t - 1])
  }

  /** Relaxes position `v` of layer `i` over every entry of the previous row, the first minimiser winning. */
  method Relax(key: Key, chords: seq<Chord>, layers: seq<seq<Voicing>>, prev: seq<Entry>, i: nat, v: nat) returns (best: Entry)
    requires Admissible(key, chords, layers) && 0 < i < |layers| && |prev| == |layers[i - 1]| && v < |layers[i]|
    ensures BestAmong(Steps(key, chords, layers), prev, i, v, |prev|, best)
  {
    ghost var step := Steps(key, chords, layers);
    best := Entry(None, None);
    for u := 0 to |prev|
      invariant BestAmong(step, prev, i, v, u, best)
    {
      var c := Cost(key, chords[i - 1], layers[i - 1][u], chords[i], layers[i][v]);
      assert c == step(i - 1, u, v);
      match prev[u].cost
      case None =>
        // an unreachable predecessor stays unreachable and never improves the best
      case Some(pcost) =>
        if best.cost.None? || pcost + c < best.cost.value {
          best := Entry(Some(pcost + c), Some(u));
        }
    }
  }

  /** Fills the row of layer `i`, given the row `prev` of the layer before it. */
  method FillRow(key: Key, chords: seq<Chord>, layers: seq<seq<Voicing>>, prev: seq<Entry>, i: nat) returns (row: seq<Entry>)
    requires Admissible(key, chords, layers) && i < |layers| && (i > 0 ==> |prev| == |layers[i - 1]|)
    ensures |row| == |layers[i]|
    ensures forall v :: 0 <= v < |row| ==> EntryOk(Steps(key, chords, layers), prev, i, v, row[v])
  {
    row := [];
    for v := 0 to |layers[i]|
      invariant |row| == v
      invariant forall w :: 0 <= w < v ==> EntryOk(Steps(key, chords, layers), prev, i, w, row[w])
    {
      var e: Entry;
      if i == 0 {
        e := Entry(Some(0), None);
      } else {
        e := Relax(key, chords, layers, prev, i, v);
      }
      row := row + [e];
    }
  }

  /** Fills the table layer by layer. */
  method FillTable(key: Key, chords: seq<Chord>, layers: seq<seq<Voicing>>) returns (dp: seq<seq<Entry>>)
    requires Admissible(key, chords, layers)
    ensures |dp| == |layers| && IsTable(Steps(key, chords, layers), layers, dp)
  {
    dp := [];
    for i := 0 to |layers|
      invariant |dp| == i && IsTable(Steps(key, chords, layers), layers, dp)
    {
      var row := FillRow(key, chords, layers, Prev(dp, i), i);
      AppendRow(Steps(key, chords, layers), layers, dp, row);
      dp := dp + [row];
    }
  }

  lemma AppendRow(step: StepCost, layers: seq<seq<Voicing>>, dp: seq<seq<Entry>>, row: seq<Entry>)
    requires IsTable(step, layers, dp) && |dp| < |layers|
    requires |row| == |layers[|dp|]|
    requires forall w :: 0 <= w < |row| ==> EntryOk(step, Prev(dp, |dp|), |dp|, w, row[w])
    ensures IsTable(step, layers, dp + [row])
  {
    var dp' := dp + [row];
    forall i, v | 0 <= i < |dp'| && 0 <= v < |dp'[i]|
      ensures EntryOk(step, Prev(dp', i), i, v, dp'[i][v])
    {
      assert Prev(dp', i) == Prev(dp, i);
    }
  }

  /** Position `end` holds the least cost of `row`, and every earlier position a greater one. */
  predicate FirstCheapest(row: seq<Entry>, end: nat)
  {
    && end < |row|
    && (forall v :: 0 <= v < |row| ==> !Below(row[v].cost, row[end].cost))
    && (forall v :: 0 <= v < end ==> Below(row[end].cost, row[v].cost))
  }

  /** The position of the first entry with the least cost, a missing cost counting as infinite. */
  method CheapestEnd(last: seq<Entry>) returns (end: nat)
    requires |last| > 0
    ensures FirstCheapest(last, end)
  {
    end := 0;
    for v := 1 to |last|
      invariant end < v
      invariant forall w :: 0 <= w < v ==> !Below(last[w].cost, last[end].cost)
      invariant forall w :: 0 <= w < end ==> Below(last[end].cost, last[w].cost)
    {
      if Below(last[v].cost, last[end].cost) {
        end := v;
      }
    }
  }

  /**
   * The predecessor structure of a table: the first row costs nothing and
   * has no predecessors; in a later row an entry has a predecessor exactly
   * when it has a cost, and that predecessor is a position of the previous
   * row with a cost.
   */
  predicate Traceable(dp: seq<seq<Entry>>)
  {
    && (|dp| > 0 ==> forall v :: 0 <= v < |dp[0]| ==> dp[0][v] == Entry(Some(0), None))
    && forall i, v {:trigger dp[i][v].pred} :: 0 < i < |dp| && 0 <= v < |dp[i]| ==>
         && (dp[i][v].pred.Some? <==> dp[i][v].cost.Some?)
         && (dp[i][v].pred.Some? ==> dp[i][v].pred.value < |dp[i - 1]| && dp[i - 1][dp[i][v].pred.value].cost.Some?)
  }

  lemma TraceStep(dp: seq<seq<Entry>>, i: nat, v: nat)
    requires Traceable(dp) && 0 < i < |dp| && v < |dp[i]|
    ensures dp[i][v].pred.Some? <==> dp[i][v].cost.Some?
    ensures dp[i][v].pred.Some? ==> dp[i][v].pred.value < |dp[i - 1]| && dp[i - 1][dp[i][v].pred.value].cost.Some?
  {
  }

  /** A filled table has that predecessor structure. */
  lemma TableTraceable(step: StepCost, layers: seq<seq<Voicing>>, dp: seq<seq<Entry>>)
    requires IsTable(step, layers, dp)
    ensures Traceable(dp)
  {
    forall i, v | 0 <= i < |dp| && 0 <= v < |dp[i]|
      ensures i == 0 ==> dp[i][v] == Entry(Some(0), None)
      ensures i > 0 ==> (dp[i][v].pred.Some? <==> dp[i][v].cost.Some?)
      ensures i > 0 && dp[i][v].pred.Some? ==> dp[i][v].pred.value < |dp[i - 1]| && dp[i - 1][dp[i][v].pred.value].cost.Some?
    {
      assert EntryOk(step, Prev(dp, i), i, v, dp[i][v]);
    }
  }

  /** `s` back to front. */
  function Reversed<T>(s: seq<T>): (r: seq<T>)
    ensures |r| == |s| && forall t :: 0 <= t < |s| ==> r[t] == s[|s| - 1 - t]
  {
    seq(|s|, t requires 0 <= t < |s| => s[|s| - 1 - t])
  }

  /**
   * The walk back has visited layers `i ..` of the last: `path` records the
   * position visited in each of them, each one the predecessor the table
   * records for the next, and `ret` the voicings visited, last layer first.
   */
  predicate Walked(layers: seq<seq<Voicing>>, dp: seq<seq<Entry>>, path: seq<nat>, ret: seq<Voicing>, i: nat)
  {
    && |dp| == |layers| == |path| && Sized(layers, dp) && i <= |layers| && |ret| == |layers| - i
    && (forall j :: i <= j < |path| ==> path[j] < |layers[j]|)
    && (forall t :: 0 <= t < |ret| ==> ret[t] == layers[|layers| - 1 - t][path[|layers| - 1 - t]])
    && (forall j {:trigger dp[j][path[j]]} :: i < j < |path| ==> dp[j][path[j]].pred == Some(path[j - 1]))
  }

  /** Visiting the recorded predecessor in layer `i` extends a walk over the layers after it. */
  lemma WalkExtend(layers: seq<seq<Voicing>>, dp: seq<seq<Entry>>, path: seq<nat>, ret: seq<Voicing>, i: nat, u: nat)
    requires i < |layers| && Walked(layers, dp, path, ret, i + 1) && u < |layers[i]|
    requires i + 1 < |layers| ==> dp[i + 1][path[i + 1]].pred == Some(u)
    ensures Walked(layers, dp, path[i := u], ret + [layers[i][u]], i)
  {
    var n := |layers|;
    var path', ret' := path[i := u], ret + [layers[i][u]];
    forall t | 0 <= t < |ret'|
      ensures ret'[t] == layers[n - 1 - t][path'[n - 1 - t]]
    {
      if t < |ret| {
        assert ret'[t] == ret[t] && path'[n - 1 - t] == path[n - 1 - t];
      } else {
        assert n - 1 - t == i;
      }
    }
    forall j | i < j < n
      ensures dp[j][path'[j]].pred == Some(path'[j - 1])
    {
      assert path'[j] == path[j];
      if j > i + 1 {
        assert dp[j][path[j]].pred == Some(path[j - 1]);
      }
    }
  }

  /** A walk back to the first layer, its voicings reversed, is a linked path through every layer. */
  lemma ReversedWalk(layers: seq<seq<Voicing>>, dp: seq<seq<Entry>>, path: seq<nat>, ret: seq<Voicing>)
    requires Walked(layers, dp, path, ret, 0)
    ensures IsPath(layers, path) && Linked(dp, path)
    ensures Reversed(ret) == Pick(layers, path)
  {
    var n := |layers|;
    forall t | 0 <= t < n
      ensures Reversed(ret)[t] == layers[t][path[t]]
    {
      assert Reversed(ret)[t] == ret[n - 1 - t] && n - 1 - (n - 1 - t) == t;
    }
  }

  /**
   * The state of the walk back from position `end` of the last layer: the
   * layers from `i` on are visited, and `cur` is the position to visit in
   * layer `i - 1`, the predecessor recorded for the last visited one. Visited
   * entries have a cost exactly when the end has one.
   */
  predicate Walking(layers: seq<seq<Voicing>>, dp: seq<seq<Entry>>, end: nat, path: seq<nat>, ret: seq<Voicing>, i: nat, cur: Option<nat>)
  {
    && Walked(layers, dp, path, ret, i) && Traceable(dp)
    && 0 < |layers| && end < |layers[|layers| - 1]|
    && (i == |layers| ==> cur == Some(end))
    && (i < |layers| ==>
         && path[|layers| - 1] == end && cur == dp[i][path[i]].pred
         && dp[i][path[i]].cost.Some? == dp[|layers| - 1][end].cost.Some?)
  }

  /** Visiting `cur` keeps the walk going. */
  lemma WalkStep(layers: seq<seq<Voicing>>, dp: seq<seq<Entry>>, end: nat, path: seq<nat>, ret: seq<Voicing>, i: nat, cur: Option<nat>)
    requires Walking(layers, dp, end, path, ret, i, cur) && 0 < i && cur.Some?
    ensures cur.value < |layers[i - 1]|
    ensures Walking(layers, dp, end, path[i - 1 := cur.value], ret + [layers[i - 1][cur.value]], i - 1, dp[i - 1][cur.value].pred)
  {
    if i < |layers| {
      TraceStep(dp, i, path[i]);
    }
    WalkExtend(layers, dp, path, ret, i - 1, cur.value);
  }

  /** A walk with nothing to visit before the first layer started from an entry without a cost. */
  lemma WalkStuck(layers: seq<seq<Voicing>>, dp: seq<seq<Entry>>, end: nat, path: seq<nat>, ret: seq<Voicing>, i: nat, cur: Option<nat>)
    requires Walking(layers, dp, end, path, ret, i, cur) && 0 < i && cur.None?
    ensures dp[|dp| - 1][end].cost.None?
  {
    TraceStep(dp, i, path[i]);
  }

  /** A walk that reached the first layer started from an entry with a cost and yields a linked path. */
  lemma WalkDone(layers: seq<seq<Voicing>>, dp: seq<seq<Entry>>, end: nat, path: seq<nat>, ret: seq<Voicing>, cur: Option<nat>)
    requires Walking(layers, dp, end, path, ret, 0, cur)
    ensures dp[|dp| - 1][end].cost.Some?
    ensures |path| == |layers| && IsPath(layers, path) && path[|path| - 1] == end
    ensures Linked(dp, path) && Reversed(ret) == Pick(layers, path)
  {
    ReversedWalk(layers, dp, path, ret);
  }

  /**
   * Follows predecessors back from position `end` of the last layer,
   * appending each voicing, and returns them reversed. The walk fails where
   * it meets a missing predecessor before the first layer.
   */
  method Backtrace(layers: seq<seq<Voicing>>, dp: seq<seq<Entry>>, end: nat)
    returns (ws: Option<seq<Voicing>>, path: seq<nat>)
    requires Sized(layers, dp) && Traceable(dp)
    requires 0 < |dp| == |layers| && end < |layers[|layers| - 1]|
    ensures ws.Some? <==> dp[|dp| - 1][end].cost.Some?
    ensures ws.Some? ==>
      && |path| == |layers| && IsPath(layers, path) && path[|path| - 1] == end
      && Linked(dp, path) && ws.value == Pick(layers, path)
  {
    var n := |layers|;
    var cur: Option<nat> := Some(end);
    var ret: seq<Voicing> := [];
    path := seq(n, _ => 0);
    var i := n;
    while i > 0
      invariant Walking(layers, dp, end, path, ret, i, cur)
    {
      if cur.None? {
        // looking up a missing predecessor in the previous row fails
        WalkStuck(layers, dp, end, path, ret, i, cur);
        ws := None;
        return;
      }
      WalkStep(layers, dp, end, path, ret, i, cur);
      i := i - 1;
      ret := ret + [layers[i][cur.value]];
      path := path[i := cur.value];
      cur := dp[i][cur.value].pred;
    }
    WalkDone(layers, dp, end, path, ret, cur);
    ws := Some(Reversed(ret));
  }

  /** Every entry reached by a path through the layers has a cost, and that cost is at most the path's. */
  lemma {:induction false} TableLowerBound(step: StepCost, layers: seq<seq<Voicing>>, dp: seq<seq<Entry>>, p: seq<nat>)
    requires IsTable(step, layers, dp)
    requires 0 < |p| <= |dp| && IsPath(layers, p)
    ensures dp[|p| - 1][p[|p| - 1]].cost.Some?
    ensures dp[|p| - 1][p[|p| - 1]].cost.value <= PathCost(step, p)
    decreases |p|
  {
    var k := |p| - 1;
    assert EntryOk(step, Prev(dp, k), k, p[k], dp[k][p[k]]);
    if k > 0 {
      var p' := p[..k];
      assert p'[k - 1] == p[k - 1];
      TableLowerBound(step, layers, dp, p');
    }
  }

  /** The first row costs nothing and has no predecessors. */
  lemma FirstRow(step: StepCost, layers: seq<seq<Voicing>>, dp: seq<seq<Entry>>, v: nat)
    requires IsTable(step, layers, dp)
    requires 0 < |dp| && v < |dp[0]|
    ensures dp[0][v] == Entry(Some(0), None)
  {
    assert EntryOk(step, Prev(dp, 0), 0, v, dp[0][v]);
  }

  /** An entry with a predecessor costs the predecessor's cost plus the step from it. */
  lemma EntryViaPredecessor(step: StepCost, layers: seq<seq<Voicing>>, dp: seq<seq<Entry>>, k: nat, v: nat, u: nat)
    requires IsTable(step, layers, dp)
    requires 0 < k < |dp| && v < |dp[k]| && dp[k][v].pred == Some(u)
    ensures u < |dp[k - 1]| && dp[k - 1][u].cost.Some?
    ensures dp[k][v].cost == Some(dp[k - 1][u].cost.value + step(k - 1, u, v))
  {
    assert EntryOk(step, Prev(dp, k), k, v, dp[k][v]);
  }

  /** Dropping the last position of a linked path leaves a linked path. */
  lemma PathPrefix(layers: seq<seq<Voicing>>, dp: seq<seq<Entry>>, p: seq<nat>)
    requires 1 < |p| && IsPath(layers, p) && Linked(dp, p)
    ensures IsPath(layers, p[..|p| - 1]) && Linked(dp, p[..|p| - 1])
    ensures p[..|p| - 1][|p| - 2] == p[|p| - 2]
  {
    var p' := p[..|p| - 1];
    forall t | 0 < t < |p'| && t < |dp| && p'[t] < |dp[t]|
      ensures dp[t][p'[t]].pred == Some(p'[t - 1])
    {
      assert p'[t] == p[t] && p'[t - 1] == p[t - 1];
    }
  }

  /** Along a path linked by predecessors, the last entry's cost is the path's cost. */
  lemma {:induction false} LinkedCost(step: StepCost, layers: seq<seq<Voicing>>, dp: seq<seq<Entry>>, p: seq<nat>)
    requires IsTable(step, layers, dp)
    requires 0 < |p| <= |dp| && IsPath(layers, p) && Linked(dp, p)
    ensures dp[|p| - 1][p[|p| - 1]].cost == Some(PathCost(step, p))
    decreases |p|
  {
    var k := |p| - 1;
    if k == 0 {
      FirstRow(step, layers, dp, p[0]);
    } else {
      PathPrefix(layers, dp, p);
      LinkedCost(step, layers, dp, p[..k]);
      EntryViaPredecessor(step, layers, dp, k, p[k], p[k - 1]);
    }
  }

  /** Past an empty layer no entry has a cost or a predecessor. */
  lemma {:induction false} EmptyLayerUnreached(step: StepCost, layers: seq<seq<Voicing>>, dp: seq<seq<Entry>>, k: nat, i: nat, v: nat)
    requires IsTable(step, layers, dp)
    requires k < i < |dp| && |layers[k]| == 0 && v < |dp[i]|
    ensures dp[i][v] == Entry(None, None)
    decreases i
  {
    if i > k + 1 {
      var prev := dp[i - 1];
      forall u | 0 <= u < |prev|
        ensures prev[u] == Entry(None, None)
      {
        EmptyLayerUnreached(step, layers, dp, k, i - 1, u);
      }
    }
    assert EntryOk(step, Prev(dp, i), i, v, dp[i][v]);
  }

  /** An entry of the last row with a cost shows that no layer is empty. */
  lemma ReachedLayersNonempty(step: StepCost, layers: seq<seq<Voicing>>, dp: seq<seq<Entry>>, v: nat)
    requires IsTable(step, layers, dp)
    requires 0 < |dp| == |layers| && v < |dp[|dp| - 1]| && dp[|dp| - 1][v].cost.Some?
    ensures forall k :: 0 <= k < |layers| ==> |layers[k]| > 0
  {
    var n := |layers|;
    forall k | 0 <= k < n - 1 && |layers[k]| == 0
      ensures false
    {
      EmptyLayerUnreached(step, layers, dp, k, n - 1, v);
    }
  }

  /** With every layer nonempty, every entry of the last row has a cost. */
  lemma AllLayersReached(step: StepCost, layers: seq<seq<Voicing>>, dp: seq<seq<Entry>>, v: nat)
    requires IsTable(step, layers, dp)
    requires 0 < |dp| == |layers| && forall i :: 0 <= i < |layers| ==> |layers[i]| > 0
    requires v < |layers[|layers| - 1]|
    ensures dp[|dp| - 1][v].cost.Some?
  {
    var n := |layers|;
    var p := seq(n, t requires 0 <= t < n => if t == n - 1 then v else 0);
    assert IsPath(layers, p);
    TableLowerBound(step, layers, dp, p);
  }

  /** An entry of the last row whose cost is the least there costs at most any path through every layer. */
  lemma Optimal(step: StepCost, layers: seq<seq<Voicing>>, dp: seq<seq<Entry>>, end: nat, total: int)
    requires IsTable(step, layers, dp)
    requires 0 < |dp| == |layers| && FirstCheapest(dp[|dp| - 1], end) && dp[|dp| - 1][end].cost == Some(total)
    ensures forall p :: |p| == |layers| && IsPath(layers, p) ==> total <= PathCost(step, p)
  {
    forall p | |p| == |layers| && IsPath(layers, p)
      ensures total <= PathCost(step, p)
    {
      TableLowerBound(step, layers, dp, p);
    }
  }

  /** A sequence of voicings taken from the layers makes the leading-tone rule defined throughout. */
  lemma ThroughFits(key: Key, chords: seq<Chord>, layers: seq<seq<Voicing>>, w: seq<Voicing>)
    requires Admissible(key, chords, layers) && Through(layers, w)
    ensures Fits(key, chords, w)
  {
    forall t | 0 <= t < |w| - 1
      ensures LeadingToneDefined(key, chords[t], w[t], chords[t + 1])
    {
      var u :| 0 <= u < |layers[t]| && layers[t][u] == w[t];
    }
  }

  /** Along a path, the transition costs between the layers add up to the score of the voicings it picks. */
  lemma {:induction false} PathCostIsScore(key: Key, chords: seq<Chord>, layers: seq<seq<Voicing>>, p: seq<nat>)
    requires Admissible(key, chords, layers) && IsPath(layers, p)
    ensures Fits(key, chords, Pick(layers, p))
    ensures PathCost(Steps(key, chords, layers), p) == ProgressionCost(key, chords, Pick(layers, p))
    decreases |p|
  {
    var w := Pick(layers, p);
    assert Through(layers, w);
    ThroughFits(key, chords, layers, w);
    if |p| > 1 {
      var k := |p| - 1;
      assert Pick(layers, p[..k]) == w[..k];
      PathCostIsScore(key, chords, layers, p[..k]);
    }
  }

  /** Every sequence of voicings taken from the layers is picked by some path. */
  lemma {:induction false} PathOf(layers: seq<seq<Voicing>>, w: seq<Voicing>) returns (p: seq<nat>)
    requires Through(layers, w)
    ensures |p| == |w| && IsPath(layers, p) && Pick(layers, p) == w
    decreases |w|
  {
    if w == [] {
      p := [];
    } else {
      var k := |w| - 1;
      var p' := PathOf(layers, w[..k]);
      var u :| 0 <= u < |layers[k]| && layers[k][u] == w[k];
      p := p' + [u];
      forall t | 0 <= t < |w|
        ensures Pick(layers, p)[t] == w[t]
      {
        if t < k {
          assert p[t] == p'[t] && w[..k][t] == w[t];
        }
      }
    }
  }

  /** A total no full path undercuts is a total no full sequence of voicings through the layers undercuts. */
  lemma OptimalVoicings(key: Key, chords: seq<Chord>, layers: seq<seq<Voicing>>, total: int)
    requires Admissible(key, chords, layers)
    requires forall p :: |p| == |layers| && IsPath(layers, p) ==> total <= PathCost(Steps(key, chords, layers), p)
    ensures forall w :: |w| == |layers| && Through(layers, w) ==> Fits(key, chords, w) && total <= ProgressionCost(key, chords, w)
  {
    forall w | |w| == |layers| && Through(layers, w)
      ensures Fits(key, chords, w) && total <= ProgressionCost(key, chords, w)
    {
      var p := PathOf(layers, w);
      PathCostIsScore(key, chords, layers, p);
    }
  }

  /**
   * Fills the table, picks the first cheapest entry of the last layer and
   * follows predecessors back. There is no result for an empty progression
   * (the last row does not exist), an empty last layer (no minimum) or an
   * empty earlier layer (the walk meets a missing predecessor).
   */
  method Optimize(key: Key, chords: seq<Chord>, layers: seq<seq<Voicing>>) returns (dp: seq<seq<Entry>>, result: Option<Progression>)
    requires Admissible(key, chords, layers)
    ensures |dp| == |layers| && IsTable(Steps(key, chords, layers), layers, dp)
    ensures result.Some? <==> |layers| > 0 && forall i :: 0 <= i < |layers| ==> |layers[i]| > 0
    ensures result.Some? ==>
      var r, n := result.value, |layers|;
      && |r.choice| == n && IsPath(layers, r.choice) && Linked(dp, r.choice)
      && r.voicings == Pick(layers, r.choice)
      && dp[n - 1][r.choice[n - 1]].cost == Some(r.total)
      && FirstCheapest(dp[n - 1], r.choice[n - 1])
      && Fits(key, chords, r.voicings) && r.total == ProgressionCost(key, chords, r.voicings)
      && forall w :: |w| == n && Through(layers, w) ==> Fits(key, chords, w) && r.total <= ProgressionCost(key, chords, w)
  {
    ghost var step := Steps(key, chords, layers);
    dp := FillTable(key, chords, layers);
    var n := |layers|;
    if n == 0 {
      // the last row of an empty table does not exist
      return dp, None;
    }
    var last := dp[n - 1];
    if |last| == 0 {
      // no minimum over an empty row
      return dp, None;
    }
    var end := CheapestEnd(last);
    TableTraceable(step, layers, dp);
    var ws, path := Backtrace(layers, dp, end);
    if ws.None? {
      if forall i :: 0 <= i < n ==> |layers[i]| > 0 {
        AllLayersReached(step, layers, dp, end);
        assert false;
      }
      return dp, None;
    }
    ReachedLayersNonempty(step, layers, dp, end);
    var total := last[end].cost.value;
    LinkedCost(step, layers, dp, path);
    PathCostIsScore(key, chords, layers, path);
    Optimal(step, layers, dp, end, total);
    OptimalVoicings(key, chords, layers, total);
    result := Some(Progression(ws.value, path, total));
  }

  /** `w` voices each chord of `chords` with one of the voicings generated for it. */
  predicate Candidate(chords: seq<Chord>, w: seq<Voicing>)
    requires forall i :: 0 <= i < |chords| ==> chords[i].Shaped()
  {
    |w| == |chords| && forall t :: 0 <= t < |w| ==> w[t] in VoiceChord(chords[t])
  }

  /** The layers are the voicings generated for each chord in turn. */
  predicate LayersOf(chords: seq<Chord>, layers: seq<seq<Voicing>>)
    requires forall i :: 0 <= i < |chords| ==> chords[i].Shaped()
  {
    |layers| == |chords| && forall i :: 0 <= i < |layers| ==> layers[i] == VoiceChord(chords[i])
  }

  /** Generated voicings of consistent chords all sound the chord's third, so every transition can be scored. */
  lemma LayersAdmissible(key: Key, chords: seq<Chord>, layers: seq<seq<Voicing>>)
    requires forall i :: 0 <= i < |chords| ==> chords[i].Shaped() && Consistent(chords[i])
    requires LayersOf(chords, layers)
    ensures Admissible(key, chords, layers)
  {
    forall i, u | 0 <= i < |layers| - 1 && 0 <= u < |layers[i]|
      ensures LeadingToneDefined(key, chords[i], layers[i][u], chords[i + 1])
    {
      VoicingBassAndThird(chords[i], layers[i][u]);
    }
  }

  /** Full sequences through the layers are exactly the candidate voicings of the progression. */
  lemma ThroughCandidates(chords: seq<Chord>, layers: seq<seq<Voicing>>, w: seq<Voicing>)
    requires forall i :: 0 <= i < |chords| ==> chords[i].Shaped()
    requires LayersOf(chords, layers)
    ensures |w| == |layers| && Through(layers, w) <==> Candidate(chords, w)
  {
  }

  /** The voicings generated for each chord, in order. */
  function ChordLayers(chords: seq<Chord>): (layers: seq<seq<Voicing>>)
    requires forall i :: 0 <= i < |chords| ==> chords[i].Shaped()
    ensures LayersOf(chords, layers)
  {
    seq(|chords|, i requires 0 <= i < |chords| => VoiceChord(chords[i]))
  }

  /**
   * Voices a progression: one layer of generated voicings per chord, the
   * table over them, the cheapest end and the walk back. There is no result
   * for an empty progression or when some chord has no voicing, the cases in
   * which the source raises.
   */
  method VoiceProgression(key: Key, chords: seq<Chord>) returns (layers: seq<seq<Voicing>>, result: Option<Progression>)
    requires forall i :: 0 <= i < |chords| ==> chords[i].Shaped() && Consistent(chords[i])
    ensures LayersOf(chords, layers)
    ensures result.Some? <==> |chords| > 0 && forall i :: 0 <= i < |layers| ==> |layers[i]| > 0
    ensures result.Some? ==>
      var r, n := result.value, |chords|;
      && |r.choice| == n && IsPath(layers, r.choice) && r.voicings == Pick(layers, r.choice)
      && Fits(key, chords, r.voicings) && r.total == ProgressionCost(key, chords, r.voicings)
      && forall w :: |w| == n && Through(layers, w) ==> Fits(key, chords, w) && r.total <= ProgressionCost(key, chords, w)
  {
    layers := ChordLayers(chords);
    LayersAdmissible(key, chords, layers);
    var dp;
    dp, result := Optimize(key, chords, layers);
  }
}
