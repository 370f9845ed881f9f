/** Which pairs of particles are joined by a line, and how opaque each line is.

    The effect walks every index pair (i, j) with i <= j, a particle paired with
    itself included, and draws a line when the two are closer than `MaxDistance`,
    with opacity `1 - distance / MaxDistance`. `Drawn(dist, i, j)` is the sequence
    of lines drawn before the nested loop reaches (i, j), where `dist[i][j]` is the
    distance between particles i and j. */
module Connections {
  import opened Motion

  const MaxDistance: real := 100.0

  /** A line from particle `i` to particle `j`, drawn with the given opacity. */
  datatype Line = Line(i: nat, j: nat, opacity: real)

  // ---------------------------------------------------------------------------
  // The line for one pair

  /** The linear fade: opaque at distance 0, transparent at `MaxDistance`. */
  function Opacity(d: real): (o: real)
    requires 0.0 <= d < MaxDistance
    ensures 0.0 < o <= 1.0
    ensures o == 1.0 <==> d == 0.0
  {
    1.0 - d / MaxDistance
  }

  /** Nearer pairs are drawn more opaque. */
  lemma OpacityFades(d: real, e: real)
    requires 0.0 <= d < e < MaxDistance
    ensures Opacity(d) > Opacity(e)
  {
  }

  /** The line drawn for the pair (i, j) at distance `d`: one exactly when `d` is
      below `MaxDistance`. */
  function Connect(i: nat, j: nat, d: real): (ls: seq<Line>)
    requires 0.0 <= d
    ensures |ls| <= 1
    ensures ls != [] <==> d < MaxDistance
    ensures ls != [] ==> ls[0].i == i && ls[0].j == j && 0.0 < ls[0].opacity <= 1.0
  {
    if d < MaxDistance then [Line(i, j, Opacity(d))] else []
  }

  // ---------------------------------------------------------------------------
  // The lines drawn by the nested loop

  /** `dist` is an n by n table of non-negative distances. */
  predicate Table(dist: seq<seq<real>>) {
    (forall i :: 0 <= i < |dist| ==> |dist[i]| == |dist|) &&
    (forall i, j :: 0 <= i < |dist| && 0 <= j < |dist[i]| ==> dist[i][j] >= 0.0)
  }

  /** The nested loop visits (a, b) before (i, j): lexicographic order on pairs. */
  predicate Before(a: nat, b: nat, i: nat, j: nat) {
    a < i || (a == i && b < j)
  }

  /** The lines drawn, in order, once the loop has finished rows 0 .. i - 1 and, in
      row i, the columns i .. j - 1. The whole loop over n particles draws
      `Drawn(dist, n, n)`. */
  function Drawn(dist: seq<seq<real>>, i: nat, j: nat): seq<Line>
    requires Table(dist) && i <= j <= |dist|
    decreases i, j
  {
    if i < j then Drawn(dist, i, j - 1) + Connect(i, j - 1, dist[i][j - 1])
    else if i == 0 then []
    else Drawn(dist, i - 1, |dist|)
  }

  /** Every line of `ls` joins a pair a <= b of the table visited before (i, j),
      closer than `MaxDistance`, and carries that pair's opacity. */
  predicate SoundBefore(dist: seq<seq<real>>, ls: seq<Line>, i: nat, j: nat)
    requires Table(dist)
  {
    forall l :: l in ls ==>
      l.i <= l.j < |dist| && Before(l.i, l.j, i, j) &&
      dist[l.i][l.j] < MaxDistance && l.opacity == Opacity(dist[l.i][l.j])
  }

  /** Every line drawn so far joins a pair i <= j that the loop has already
      visited, closer than `MaxDistance`, and carries that pair's opacity. */
  lemma {:induction false} DrawnSound(dist: seq<seq<real>>, i: nat, j: nat)
    requires Table(dist) && i <= j <= |dist|
    ensures SoundBefore(dist, Drawn(dist, i, j), i, j)
    decreases i, j
  {
    if i < j {
      DrawnSound(dist, i, j - 1);
      SoundNextColumn(dist, Drawn(dist, i, j - 1), i, j);
    } else if i > 0 {
      DrawnSound(dist, i - 1, |dist|);
      SoundNextRow(dist, Drawn(dist, i - 1, |dist|), i);
    }
  }

  lemma SoundNextColumn(dist: seq<seq<real>>, init: seq<Line>, i: nat, j: nat)
    requires Table(dist) && i < j <= |dist|
    requires SoundBefore(dist, init, i, j - 1)
    ensures SoundBefore(dist, init + Connect(i, j - 1, dist[i][j - 1]), i, j)
  {
    var last := Connect(i, j - 1, dist[i][j - 1]);
    forall l | l in init + last
      ensures l.i <= l.j < |dist| && Before(l.i, l.j, i, j) &&
        dist[l.i][l.j] < MaxDistance && l.opacity == Opacity(dist[l.i][l.j])
    {
      if l !in init {
        assert l == Line(i, j - 1, Opacity(dist[i][j - 1]));
      }
    }
  }

  lemma SoundNextRow(dist: seq<seq<real>>, ls: seq<Line>, i: nat)
    requires Table(dist) && 0 < i <= |dist|
    requires SoundBefore(dist, ls, i - 1, |dist|)
    ensures SoundBefore(dist, ls, i, i)
  {
  }

  /** Every pair a <= b of the table visited before (i, j) and closer than
      `MaxDistance` has its line in `ls`. */
  predicate CompleteBefore(dist: seq<seq<real>>, ls: seq<Line>, i: nat, j: nat)
    requires Table(dist)
  {
    forall a, b :: 0 <= a <= b < |dist| && Before(a, b, i, j) && dist[a][b] < MaxDistance ==>
      Line(a, b, Opacity(dist[a][b])) in ls
  }

  /** Every pair i <= j visited so far and closer than `MaxDistance` has its line. */
  lemma {:induction false} DrawnComplete(dist: seq<seq<real>>, i: nat, j: nat)
    requires Table(dist) && i <= j <= |dist|
    ensures CompleteBefore(dist, Drawn(dist, i, j), i, j)
    decreases i, j
  {
    if i < j {
      DrawnComplete(dist, i, j - 1);
      CompleteNextColumn(dist, Drawn(dist, i, j - 1), i, j);
    } else if i > 0 {
      DrawnComplete(dist, i - 1, |dist|);
      CompleteNextRow(dist, Drawn(dist, i - 1, |dist|), i);
    }
  }

  lemma CompleteNextColumn(dist: seq<seq<real>>, init: seq<Line>, i: nat, j: nat)
    requires Table(dist) && i < j <= |dist|
    requires CompleteBefore(dist, init, i, j - 1)
    ensures CompleteBefore(dist, init + Connect(i, j - 1, dist[i][j - 1]), i, j)
  {
    var last := Connect(i, j - 1, dist[i][j - 1]);
    forall a, b | 0 <= a <= b < |dist| && Before(a, b, i, j) && dist[a][b] < MaxDistance
      ensures Line(a, b, Opacity(dist[a][b])) in init + last
    {
      if a == i && b == j - 1 {
        assert last == [Line(a, b, Opacity(dist[a][b]))];
      } else {
        assert Line(a, b, Opacity(dist[a][b])) in init;
      }
    }
  }

  lemma CompleteNextRow(dist: seq<seq<real>>, ls: seq<Line>, i: nat)
    requires Table(dist) && 0 < i <= |dist|
    requires CompleteBefore(dist, ls, i - 1, |dist|)
    ensures CompleteBefore(dist, ls, i, i)
  {
  }

  /** The lines come in strictly increasing pair order. */
  predicate Ordered(ls: seq<Line>) {
    forall s, t :: 0 <= s < t < |ls| ==> Before(ls[s].i, ls[s].j, ls[t].i, ls[t].j)
  }

  /** The loop draws lines in strictly increasing pair order, so no pair twice. */
  lemma {:induction false} DrawnOrdered(dist: seq<seq<real>>, i: nat, j: nat)
    requires Table(dist) && i <= j <= |dist|
    ensures Ordered(Drawn(dist, i, j))
    decreases i, j
  {
    if i < j {
      DrawnOrdered(dist, i, j - 1);
      DrawnSound(dist, i, j - 1);
      OrderedNextColumn(dist, Drawn(dist, i, j - 1), i, j);
    } else if i > 0 {
      DrawnOrdered(dist, i - 1, |dist|);
      assert Drawn(dist, i, j) == Drawn(dist, i - 1, |dist|);
    }
  }

  lemma OrderedNextColumn(dist: seq<seq<real>>, init: seq<Line>, i: nat, j: nat)
    requires Table(dist) && i < j <= |dist|
    requires Ordered(init) && SoundBefore(dist, init, i, j - 1)
    ensures Ordered(init + Connect(i, j - 1, dist[i][j - 1]))
  {
    OrderedAppend(init, Connect(i, j - 1, dist[i][j - 1]), i, j - 1);
  }

  /** Appending at most one line, for a pair after every earlier one, keeps the order. */
  lemma OrderedAppend(init: seq<Line>, last: seq<Line>, i: nat, j: nat)
    requires Ordered(init)
    requires forall l :: l in init ==> Before(l.i, l.j, i, j)
    requires |last| <= 1 && (last != [] ==> last[0].i == i && last[0].j == j)
    ensures Ordered(init + last)
  {
    var ls := init + last;
    forall s, t | 0 <= s < t < |ls| ensures Before(ls[s].i, ls[s].j, ls[t].i, ls[t].j) {
      if t < |init| {
        assert ls[s] == init[s] && ls[t] == init[t];
      } else {
        assert ls[s] == init[s] && init[s] in init && ls[t] == last[0];
      }
    }
  }

  lemma CountStep(i: int, n: int)
    requires 1 <= i
    ensures (i - 1) * (2 * n - i + 2) + 2 * (n - i + 1) == i * (2 * n - i + 1)
  {
  }

  /** At most one line per visited pair: rows 0 .. i - 1 hold i (2n - i + 1) / 2
      pairs and row i has j - i so far. */
  lemma {:induction false} DrawnCount(dist: seq<seq<real>>, i: nat, j: nat)
    requires Table(dist) && i <= j <= |dist|
    ensures 2 * |Drawn(dist, i, j)| <= i * (2 * |dist| - i + 1) + 2 * (j - i)
    decreases i, j
  {
    if i < j {
      DrawnCount(dist, i, j - 1);
    } else if i > 0 {
      DrawnCount(dist, i - 1, |dist|);
      CountStep(i, |dist|);
    }
  }

  /** When every pair is closer than `MaxDistance`, every visited pair draws its
      line, so the count is exact: the whole loop visits n (n + 1) / 2 pairs. */
  lemma {:induction false} DrawnCountAllClose(dist: seq<seq<real>>, i: nat, j: nat)
    requires Table(dist) && i <= j <= |dist|
    requires forall a, b :: 0 <= a <= b < |dist| ==> dist[a][b] < MaxDistance
    ensures 2 * |Drawn(dist, i, j)| == i * (2 * |dist| - i + 1) + 2 * (j - i)
    decreases i, j
  {
    if i < j {
      DrawnCountAllClose(dist, i, j - 1);
    } else if i > 0 {
      DrawnCountAllClose(dist, i - 1, |dist|);
      CountStep(i, |dist|);
    }
  }

  /** For the whole loop over n particles: every line joins a pair i <= j closer
      than `MaxDistance` with its fading opacity in (0, 1]; every such pair has its
      line; no pair has two; there are at most n (n + 1) / 2 lines. */
  lemma AllLines(dist: seq<seq<real>>)
    requires Table(dist)
    ensures var n, ls := |dist|, Drawn(dist, |dist|, |dist|);
      (forall l :: l in ls ==>
        l.i <= l.j < n && dist[l.i][l.j] < MaxDistance &&
        l.opacity == Opacity(dist[l.i][l.j]) && 0.0 < l.opacity <= 1.0) &&
      (forall a, b :: 0 <= a <= b < n && dist[a][b] < MaxDistance ==>
        Line(a, b, Opacity(dist[a][b])) in ls) &&
      Ordered(ls) &&
      (forall s, t :: 0 <= s < t < |ls| ==> (ls[s].i, ls[s].j) != (ls[t].i, ls[t].j)) &&
      2 * |ls| <= n * (n + 1)
  {
    var n := |dist|;
    DrawnSound(dist, n, n);
    DrawnComplete(dist, n, n);
    DrawnOrdered(dist, n, n);
    DrawnCount(dist, n, n);
  }

  /** With a zero diagonal, every particle is joined to itself with opacity 1. */
  lemma LinesToSelf(dist: seq<seq<real>>)
    requires Table(dist)
    requires forall i :: 0 <= i < |dist| ==> dist[i][i] == 0.0
    ensures forall i :: 0 <= i < |dist| ==> Line(i, i, 1.0) in Drawn(dist, |dist|, |dist|)
  {
    DrawnComplete(dist, |dist|, |dist|);
    forall i | 0 <= i < |dist| ensures Line(i, i, 1.0) in Drawn(dist, |dist|, |dist|) {
      assert Opacity(dist[i][i]) == 1.0;
    }
  }

  // ---------------------------------------------------------------------------
  // Distances between particle positions

  /** `dist[i][j]` is the Euclidean distance between positions i and j. */
  predicate DistanceTable(dist: seq<seq<real>>, pos: seq<(real, real)>) {
    |dist| == |pos| &&
    (forall i :: 0 <= i < |dist| ==> |dist[i]| == |pos|) &&
    (forall i, j :: 0 <= i < |dist| && 0 <= j < |dist[i]| ==>
      IsHypot(dist[i][j], pos[i].0 - pos[j].0, pos[i].1 - pos[j].1))
  }

  /** A positive length has a positive square, so only 0 has length 0. */
  lemma PositiveSquare(d: real)
    ensures d > 0.0 ==> d * d > 0.0
  {
  }

  /** A particle is at distance 0 from itself. */
  lemma SelfDistanceZero(dist: seq<seq<real>>, pos: seq<(real, real)>)
    requires DistanceTable(dist, pos)
    ensures Table(dist)
    ensures forall i :: 0 <= i < |dist| ==> dist[i][i] == 0.0
  {
    forall i, j | 0 <= i < |dist| && 0 <= j < |dist[i]| ensures dist[i][j] >= 0.0 {
      assert IsHypot(dist[i][j], pos[i].0 - pos[j].0, pos[i].1 - pos[j].1);
    }
    forall i | 0 <= i < |dist| ensures dist[i][i] == 0.0 {
      assert IsHypot(dist[i][i], pos[i].0 - pos[i].0, pos[i].1 - pos[i].1);
      PositiveSquare(dist[i][i]);
    }
  }
}
