/**
 * The layout generator: one seeded stream drives the point count, each
 * point's jitter, size and opacity, the optional skip-one connections and
 * two cross-connection attempts.
 *
 * The specification is a closed form over draw positions: the d-th call of
 * the generator (d >= 1) returns Iterate(seed, d).  Draw 1 gives the point
 * count n; point i uses the DrawsPerPoint draws after PointBase(i); the
 * skip-one pass uses the n - 2 draws after SkipBase; the cross pass uses
 * the 4 draws after CrossBase.  The method Layout is proved to produce
 * exactly this structure while consuming exactly DrawCount draws.
 */
module Generator {
  import opened Lcg
  import opened Seed

  const Width: real := 800.0
  const Height: real := 200.0
  const Padding: real := 60.0
  /** A skip-one connection is added when its draw exceeds this. */
  const SkipThreshold: real := 0.6

  datatype Point = Point(x: real, y: real, size: real, opacity: real)
  datatype Connection = Connection(from: int, to: int)
  datatype Constellation = Constellation(points: seq<Point>, connections: seq<Connection>)

  /** Every connection joins two distinct existing points, lower index first. */
  predicate WellFormed(c: Constellation)
  {
    forall k :: 0 <= k < |c.connections| ==>
      0 <= c.connections[k].from < c.connections[k].to < |c.points|
  }

  function Min(a: real, b: real): real
  {
    if a <= b then a else b
  }

  /**
   * Whether point sizes follow the contribution counts.  An empty list is
   * present but `contributions[i % 0]` is undefined, so it overrides nothing.
   */
  predicate SizesFromContributions(contributions: Option<seq<ContributionDay>>)
  {
    contributions.Some? && |contributions.value| > 0
  }

  /** x, y, size and opacity; plus the overriding size draw when sizes follow the counts. */
  function DrawsPerPoint(contributions: Option<seq<ContributionDay>>): nat
  {
    if SizesFromContributions(contributions) then 5 else 4
  }

  /**
   * `Math.floor(random() * k)` for the draw that left state s, computed on
   * integers: the floor of (s / 0x7fffffff) * k is the quotient of s * k by
   * 0x7fffffff (PickIsFloor).
   */
  function Pick(s: int, k: int): int
  {
    (s * k) / MaxState
  }

  /** The integer quotient is the floor of the scaled draw value. */
  lemma PickIsFloor(s: int, k: int)
    ensures Pick(s, k) == (Value(s) * k as real).Floor
  {
    var q, r := (s * k) / MaxState, (s * k) % MaxState;
    assert s * k == q * MaxState + r && 0 <= r < MaxState;
    var v := Value(s) * k as real;
    assert v * MaxState as real == (s * k) as real;
    assert v == q as real + r as real / MaxState as real;
    assert q as real <= v < q as real + 1.0;
  }

  /** The draws consumed before point i: the count draw and i whole points. */
  function PointBase(i: nat, per: nat): nat
  {
    1 + i * per
  }

  /** The draws consumed before the skip-one pass. */
  function SkipBase(n: nat, per: nat): nat
  {
    1 + n * per
  }

  /** The draws consumed before the cross pass: one skip draw for each i < n - 2. */
  function CrossBase(n: nat, per: nat): nat
    requires n >= 2
  {
    SkipBase(n, per) + (n - 2)
  }

  /** The draws a whole generation consumes. */
  function DrawCount(n: nat, per: nat): nat
    requires n >= 2
  {
    CrossBase(n, per) + 4
  }

  /** `Math.floor(random() * k)` on any draw is non-negative, and below k when k is positive. */
  lemma DrawPick(seed: int, d: nat, k: nat)
    requires d >= 1
    ensures 0 <= Pick(Iterate(seed, d), k)
    ensures k > 0 ==> Pick(Iterate(seed, d), k) < k
  {
    var s := Iterate(seed, d);
    assert 0 <= s * k <= (MaxState - 1) * k by {
      MulMonotone(s, MaxState - 1, k);
    }
  }

  lemma MulMonotone(a: int, b: int, k: nat)
    requires 0 <= a <= b
    ensures 0 <= a * k <= b * k
  {
  }

  /** `Math.floor(random() * 5) + 8`: between 8 and 12 points. */
  function PointCount(seed: int): (n: nat)
    ensures 8 <= n <= 12
  {
    DrawPick(seed, 1, 5);
    Pick(Iterate(seed, 1), 5) + 8
  }

  /** The un-jittered horizontal position: linear across the width inside the padding. */
  function BaseX(i: nat, n: nat): real
    requires n >= 2
  {
    Padding + (i as real / (n - 1) as real) * (Width - 2.0 * Padding)
  }

  /**
   * Point i of n, drawn from generator state s: x and y jitter, the plain
   * size, then (when sizes follow the counts) the overriding size, then the
   * opacity.
   */
  function PointFrom(s: int, n: nat, i: nat, contributions: Option<seq<ContributionDay>>): (p: Point)
    requires n >= 2
    ensures 0.5 <= p.opacity < 0.9
    ensures BaseX(i, n) - 20.0 <= p.x < BaseX(i, n) + 20.0
    ensures 50.0 <= p.y < 150.0
    ensures !SizesFromContributions(contributions) ==> 2.0 <= p.size < 5.0
    ensures SizesFromContributions(contributions) ==> p.size < 8.0
    ensures SizesFromContributions(contributions) ==>
      contributions.value[i % |contributions.value|].contributionCount >= 0 ==> 2.0 <= p.size
  {
    DrawBelowOne(s, 1);
    DrawBelowOne(s, 2);
    DrawBelowOne(s, 3);
    DrawBelowOne(s, 4);
    DrawBelowOne(s, 5);
    var x := BaseX(i, n) + (Value(Iterate(s, 1)) - 0.5) * 40.0;
    var y := Height / 2.0 + (Value(Iterate(s, 2)) - 0.5) * 100.0;
    if SizesFromContributions(contributions) then
      // draw 3 is the plain size, drawn and then overwritten
      var days := contributions.value;
      var contrib := days[i % |days|].contributionCount;
      var size := 2.0 + Min(contrib as real / 3.0, 4.0) + Value(Iterate(s, 4)) * 2.0;
      Point(x, y, size, 0.5 + Value(Iterate(s, 5)) * 0.4)
    else
      Point(x, y, 2.0 + Value(Iterate(s, 3)) * 3.0, 0.5 + Value(Iterate(s, 4)) * 0.4)
  }

  /**
   * Point i of a run: drawn from the state left after the count draw and i
   * whole points, so its jitter comes from draws PointBase(i) + 1 and + 2 of
   * the run and its opacity from the last draw of its block.
   */
  function MakePoint(seed: int, n: nat, i: nat, contributions: Option<seq<ContributionDay>>): (p: Point)
    requires n >= 2
    ensures var b := PointBase(i, DrawsPerPoint(contributions));
      && p.x == BaseX(i, n) + (Value(Iterate(seed, b + 1)) - 0.5) * 40.0
      && p.y == Height / 2.0 + (Value(Iterate(seed, b + 2)) - 0.5) * 100.0
      && p.opacity == 0.5 + Value(Iterate(seed, b + DrawsPerPoint(contributions))) * 0.4
  {
    var b := PointBase(i, DrawsPerPoint(contributions));
    IterateAdd(seed, b, 1);
    IterateAdd(seed, b, 2);
    IterateAdd(seed, b, DrawsPerPoint(contributions));
    PointFrom(Iterate(seed, PointBase(i, DrawsPerPoint(contributions))), n, i, contributions)
  }

  /** The n points, in index order. */
  function Points(seed: int, contributions: Option<seq<ContributionDay>>): (ps: seq<Point>)
    ensures |ps| == PointCount(seed)
  {
    var n := PointCount(seed);
    seq(n, i requires 0 <= i < n => MakePoint(seed, n, i, contributions))
  }

  /** `random() > 0.6` for the draw that left state s, on integers (SkipDrawIsThreshold). */
  predicate SkipDraw(s: int)
  {
    5 * s > 3 * MaxState
  }

  /** The integer test is the comparison of the draw value with the threshold. */
  lemma SkipDrawIsThreshold(s: int)
    ensures SkipDraw(s) <==> Value(s) > SkipThreshold
  {
    assert Value(s) * MaxState as real == s as real;
  }

  /** Whether the skip-one connection (i, i + 2) is drawn and taken. */
  predicate SkipTaken(seed: int, n: nat, per: nat, i: nat)
  {
    i + 2 < n && SkipDraw(Iterate(seed, SkipBase(n, per) + 1 + i))
  }

  /** The number of skip-one connections taken for indices below k. */
  function SkipCount(seed: int, n: nat, per: nat, k: nat): nat
  {
    if k == 0 then 0
    else SkipCount(seed, n, per, k - 1) + (if SkipTaken(seed, n, per, k - 1) then 1 else 0)
  }

  /** What iteration i of the first connection loop appends. */
  function AdjacencyGroup(seed: int, n: nat, per: nat, i: nat): seq<Connection>
  {
    [Connection(i, i + 1)] + (if SkipTaken(seed, n, per, i) then [Connection(i, i + 2)] else [])
  }

  /** The connections of the first loop after k iterations: one or two per iteration. */
  function AdjacencyPass(seed: int, n: nat, per: nat, k: nat): (cs: seq<Connection>)
    ensures k <= |cs| <= 2 * k
  {
    if k == 0 then []
    else AdjacencyPass(seed, n, per, k - 1) + AdjacencyGroup(seed, n, per, k - 1)
  }

  /** Cross attempt j: `from` drawn below n - 3, `to` two or three further on, kept only if in range. */
  function CrossAttempt(seed: int, n: nat, per: nat, j: nat): (cs: seq<Connection>)
    requires n >= 2
    ensures |cs| <= 1
    ensures forall e :: e in cs ==> e.from + 2 <= e.to <= e.from + 3 && e.to < n
  {
    var b := CrossBase(n, per) + 2 * j;
    DrawPick(seed, b + 2, 2);
    var from := Pick(Iterate(seed, b + 1), n - 3);
    var to := from + 2 + Pick(Iterate(seed, b + 2), 2);
    if to < n then [Connection(from, to)] else []
  }

  /** The connections of the cross loop after j attempts. */
  function CrossPass(seed: int, n: nat, per: nat, j: nat): seq<Connection>
    requires n >= 2
  {
    if j == 0 then [] else CrossPass(seed, n, per, j - 1) + CrossAttempt(seed, n, per, j - 1)
  }

  /** All connections: the full first pass, then both cross attempts; between n + 1 and 2n - 1 of them. */
  function Connections(seed: int, contributions: Option<seq<ContributionDay>>): (cs: seq<Connection>)
    ensures PointCount(seed) + 1 <= |cs| <= 2 * PointCount(seed) - 1
  {
    var n := PointCount(seed);
    var per := DrawsPerPoint(contributions);
    SkipCountBound(seed, n, per, n - 1);
    CrossPassShape(seed, n, per, 2);
    AdjacencyPass(seed, n, per, n - 1) + CrossPass(seed, n, per, 2)
  }

  /** The constellation a seed determines: PointCount(seed) points, every connection between two of them. */
  function Generate(seed: int, contributions: Option<seq<ContributionDay>>): (c: Constellation)
    ensures |c.points| == PointCount(seed)
    ensures WellFormed(c)
  {
    ConnectionsValid(seed, contributions);
    Constellation(Points(seed, contributions), Connections(seed, contributions))
  }

  // ---------------------------------------------------------------------
  // Properties of the specification

  /** Point sizes, opacities and positions stay in the ranges their draws allow. */
  lemma PointBounds(seed: int, contributions: Option<seq<ContributionDay>>, i: nat)
    requires i < PointCount(seed)
    ensures var p := Points(seed, contributions)[i];
      && 0.5 <= p.opacity < 0.9
      && (!SizesFromContributions(contributions) ==> 2.0 <= p.size < 5.0)
      && (SizesFromContributions(contributions) ==> p.size < 8.0)
      && (SizesFromContributions(contributions) ==>
            (contributions.value[i % |contributions.value|].contributionCount >= 0 ==> 2.0 <= p.size))
      && BaseX(i, PointCount(seed)) - 20.0 <= p.x < BaseX(i, PointCount(seed)) + 20.0
      && 40.0 <= p.x < 760.0
      && 50.0 <= p.y < 150.0
  {
    BaseXRange(i, PointCount(seed));
  }

  /** All points of a run lie on the canvas, with sizes, opacities and positions in the ranges their draws allow. */
  lemma PointsInRange(seed: int, contributions: Option<seq<ContributionDay>>)
    ensures var ps := Points(seed, contributions);
      && (forall i :: 0 <= i < |ps| ==> 0.5 <= ps[i].opacity < 0.9)
      && (forall i :: 0 <= i < |ps| ==> BaseX(i, |ps|) - 20.0 <= ps[i].x < BaseX(i, |ps|) + 20.0)
      && (forall i :: 0 <= i < |ps| ==> 40.0 <= ps[i].x < 760.0 && 50.0 <= ps[i].y < 150.0)
      && (!SizesFromContributions(contributions) ==> forall i :: 0 <= i < |ps| ==> 2.0 <= ps[i].size < 5.0)
      && (SizesFromContributions(contributions) ==> forall i :: 0 <= i < |ps| ==> ps[i].size < 8.0)
      && (SizesFromContributions(contributions) && NonNegativeCounts(contributions.value) ==>
            forall i :: 0 <= i < |ps| ==> 2.0 <= ps[i].size)
  {
    var ps := Points(seed, contributions);
    forall i | 0 <= i < |ps|
      ensures 0.5 <= ps[i].opacity < 0.9
      ensures BaseX(i, |ps|) - 20.0 <= ps[i].x < BaseX(i, |ps|) + 20.0
      ensures 40.0 <= ps[i].x < 760.0 && 50.0 <= ps[i].y < 150.0
      ensures !SizesFromContributions(contributions) ==> 2.0 <= ps[i].size < 5.0
      ensures SizesFromContributions(contributions) ==> ps[i].size < 8.0
      ensures SizesFromContributions(contributions) && NonNegativeCounts(contributions.value) ==> 2.0 <= ps[i].size
    {
      PointBounds(seed, contributions, i);
    }
  }

  /** The horizontal base position lies between the paddings. */
  lemma BaseXRange(i: nat, n: nat)
    requires 2 <= n && i < n
    ensures Padding <= BaseX(i, n) <= Width - Padding
  {
    var t := i as real / (n - 1) as real;
    assert t * (n - 1) as real == i as real;
    assert 0.0 <= t <= 1.0;
  }

  /** The skip count never exceeds the iterations, nor the n - 2 skip draws. */
  lemma {:induction false} SkipCountBound(seed: int, n: nat, per: nat, k: nat)
    requires n >= 2
    ensures SkipCount(seed, n, per, k) <= k
    ensures SkipCount(seed, n, per, k) <= n - 2
  {
    if k > 0 {
      SkipCountBound(seed, n, per, k - 1);
    }
  }

  /** Skip counts grow with the index, by at most one per index. */
  lemma {:induction false} SkipCountMonotone(seed: int, n: nat, per: nat, i: nat, k: nat)
    requires i <= k
    ensures SkipCount(seed, n, per, i) <= SkipCount(seed, n, per, k)
    ensures SkipCount(seed, n, per, k) - SkipCount(seed, n, per, i) <= k - i
    decreases k - i
  {
    if i < k {
      SkipCountMonotone(seed, n, per, i, k - 1);
    }
  }

  /** The first pass holds one adjacency per iteration plus the skips taken. */
  lemma {:induction false} AdjacencyPassLength(seed: int, n: nat, per: nat, k: nat)
    ensures |AdjacencyPass(seed, n, per, k)| == k + SkipCount(seed, n, per, k)
  {
    if k > 0 {
      AdjacencyPassLength(seed, n, per, k - 1);
    }
  }

  /** The adjacency (i, i + 1) sits at position i + SkipCount(i) of the first pass. */
  lemma {:induction false} AdjacencyAt(seed: int, n: nat, per: nat, k: nat, i: nat)
    requires i < k
    ensures i + SkipCount(seed, n, per, i) < |AdjacencyPass(seed, n, per, k)|
    ensures AdjacencyPass(seed, n, per, k)[i + SkipCount(seed, n, per, i)] == Connection(i, i + 1)
  {
    AdjacencyPassLength(seed, n, per, k - 1);
    AdjacencyPassLength(seed, n, per, k);
    if i < k - 1 {
      AdjacencyAt(seed, n, per, k - 1, i);
    }
  }

  /** A taken skip (i, i + 2) directly follows the adjacency (i, i + 1). */
  lemma {:induction false} SkipAt(seed: int, n: nat, per: nat, k: nat, i: nat)
    requires i < k && SkipTaken(seed, n, per, i)
    ensures i + SkipCount(seed, n, per, i) + 1 < |AdjacencyPass(seed, n, per, k)|
    ensures AdjacencyPass(seed, n, per, k)[i + SkipCount(seed, n, per, i) + 1] == Connection(i, i + 2)
  {
    AdjacencyPassLength(seed, n, per, k - 1);
    AdjacencyPassLength(seed, n, per, k);
    if i < k - 1 {
      SkipAt(seed, n, per, k - 1, i);
    }
  }

  /** Nothing but adjacencies and taken skips is in the first pass. */
  lemma {:induction false} AdjacencyMembers(seed: int, n: nat, per: nat, k: nat, e: Connection)
    requires e in AdjacencyPass(seed, n, per, k)
    ensures 0 <= e.from < k
    ensures e.to == e.from + 1 || (e.to == e.from + 2 && SkipTaken(seed, n, per, e.from))
  {
    if e !in AdjacencyGroup(seed, n, per, k - 1) {
      AdjacencyMembers(seed, n, per, k - 1, e);
    }
  }

  /** In the first pass, the skip-one connection (i, i + 2) is present exactly when it was drawn and taken. */
  lemma SkipPairPresent(seed: int, n: nat, per: nat, i: nat)
    requires n >= 1
    ensures Connection(i, i + 2) in AdjacencyPass(seed, n, per, n - 1) <==> SkipTaken(seed, n, per, i)
  {
    if SkipTaken(seed, n, per, i) {
      SkipAt(seed, n, per, n - 1, i);
    }
    if Connection(i, i + 2) in AdjacencyPass(seed, n, per, n - 1) {
      AdjacencyMembers(seed, n, per, n - 1, Connection(i, i + 2));
    }
  }

  /**
   * With at least four points the range guard of a cross attempt never
   * fails: `from` is one of the first n - 3 points, so `to` (two or three
   * further on) is at most n - 1, and every attempt adds its connection.
   */
  lemma CrossAttemptShape(seed: int, n: nat, per: nat, j: nat)
    requires n >= 4
    ensures var b := CrossBase(n, per) + 2 * j;
      var from := Pick(Iterate(seed, b + 1), n - 3);
      && CrossAttempt(seed, n, per, j) == [Connection(from, from + 2 + Pick(Iterate(seed, b + 2), 2))]
      && 0 <= from < n - 3
    ensures forall e :: e in CrossAttempt(seed, n, per, j) ==> 0 <= e.from < n - 3 && e.from + 2 <= e.to <= e.from + 3
  {
    var b := CrossBase(n, per) + 2 * j;
    DrawPick(seed, b + 1, n - 3);
    DrawPick(seed, b + 2, 2);
  }

  /** The cross pass adds exactly j connections, each in range and spanning two or three indices. */
  lemma {:induction false} CrossPassShape(seed: int, n: nat, per: nat, j: nat)
    requires n >= 4
    ensures |CrossPass(seed, n, per, j)| == j
    ensures forall e :: e in CrossPass(seed, n, per, j) ==>
      0 <= e.from && e.from + 2 <= e.to <= e.from + 3 && e.to < n
  {
    if j > 0 {
      CrossPassShape(seed, n, per, j - 1);
      CrossAttemptShape(seed, n, per, j - 1);
    }
  }

  /** Every connection of a run is valid: no self-loop, no dangling index, lower index first. */
  lemma ConnectionsValid(seed: int, contributions: Option<seq<ContributionDay>>)
    ensures var cs := Connections(seed, contributions);
      forall k :: 0 <= k < |cs| ==> 0 <= cs[k].from < cs[k].to < PointCount(seed)
  {
    var n, per := PointCount(seed), DrawsPerPoint(contributions);
    var adjacency := AdjacencyPass(seed, n, per, n - 1);
    CrossPassShape(seed, n, per, 2);
    var cs := Connections(seed, contributions);
    assert cs == adjacency + CrossPass(seed, n, per, 2);
    forall k | 0 <= k < |cs|
      ensures 0 <= cs[k].from < cs[k].to < n
    {
      var e := cs[k];
      if k < |adjacency| {
        assert e in adjacency;
        AdjacencyMembers(seed, n, per, n - 1, e);
      } else {
        assert e in CrossPass(seed, n, per, 2);
      }
    }
  }

  /** Whether points i and i + 1 are directly connected. */
  predicate Linked(c: Constellation, i: int)
  {
    Connection(i, i + 1) in c.connections
  }

  /**
   * Adjacency order: (i, i + 1) is at position i + SkipCount(i) of the
   * connections, and that position grows strictly with i.
   */
  lemma AdjacencyInOrder(seed: int, contributions: Option<seq<ContributionDay>>, i: nat, j: nat)
    requires i < j < PointCount(seed) - 1
    ensures var cs := Connections(seed, contributions);
      var ns, per := PointCount(seed), DrawsPerPoint(contributions);
      var pi, pj := i + SkipCount(seed, ns, per, i), j + SkipCount(seed, ns, per, j);
      && pi < pj < |cs|
      && cs[pi] == Connection(i, i + 1)
      && cs[pj] == Connection(j, j + 1)
  {
    var n, per := PointCount(seed), DrawsPerPoint(contributions);
    FirstPassInOrder(seed, n, per, i, j);
    ConnectionsPrefix(seed, contributions, i + SkipCount(seed, n, per, i));
    ConnectionsPrefix(seed, contributions, j + SkipCount(seed, n, per, j));
  }

  /** The connections of a run begin with the whole first pass. */
  lemma ConnectionsPrefix(seed: int, contributions: Option<seq<ContributionDay>>, p: nat)
    requires p < |AdjacencyPass(seed, PointCount(seed), DrawsPerPoint(contributions), PointCount(seed) - 1)|
    ensures var adjacency := AdjacencyPass(seed, PointCount(seed), DrawsPerPoint(contributions), PointCount(seed) - 1);
      p < |Connections(seed, contributions)| && Connections(seed, contributions)[p] == adjacency[p]
  {
    var n, per := PointCount(seed), DrawsPerPoint(contributions);
    PrefixAt(AdjacencyPass(seed, n, per, n - 1), CrossPass(seed, n, per, 2), p);
  }

  /** Within the first pass, (i, i + 1) comes before (j, j + 1) whenever i < j. */
  lemma FirstPassInOrder(seed: int, n: nat, per: nat, i: nat, j: nat)
    requires i < j < n - 1
    ensures var adjacency := AdjacencyPass(seed, n, per, n - 1);
      var pi, pj := i + SkipCount(seed, n, per, i), j + SkipCount(seed, n, per, j);
      && pi < pj < |adjacency|
      && adjacency[pi] == Connection(i, i + 1)
      && adjacency[pj] == Connection(j, j + 1)
  {
    AdjacencyAt(seed, n, per, n - 1, i);
    AdjacencyAt(seed, n, per, n - 1, j);
    SkipCountMonotone(seed, n, per, i, j);
  }

  /** Indexing a concatenation inside its first part. */
  lemma PrefixAt(a: seq<Connection>, b: seq<Connection>, p: nat)
    requires p < |a|
    ensures p < |a + b| && (a + b)[p] == a[p]
  {
  }

  /** Adjacency completeness: every consecutive pair of points is connected. */
  lemma AdjacentConnected(seed: int, contributions: Option<seq<ContributionDay>>)
    ensures var c := Generate(seed, contributions);
      forall i :: 0 <= i < |c.points| - 1 ==> Linked(c, i)
  {
    var n, per := PointCount(seed), DrawsPerPoint(contributions);
    var c := Generate(seed, contributions);
    var adjacency := AdjacencyPass(seed, n, per, n - 1);
    assert c.connections == adjacency + CrossPass(seed, n, per, 2);
    forall i | 0 <= i < n - 1
      ensures Linked(c, i)
    {
      AdjacencyAt(seed, n, per, n - 1, i);
      assert c.connections[i + SkipCount(seed, n, per, i)] == Connection(i, i + 1);
    }
  }

  /** The draw count of a run: 1 + n * (4 or 5) + (n - 2) + 4. */
  lemma DrawCountFormula(n: nat, contributions: Option<seq<ContributionDay>>)
    requires n >= 2
    ensures !SizesFromContributions(contributions) ==> DrawCount(n, DrawsPerPoint(contributions)) == 1 + 4 * n + (n - 2) + 4
    ensures SizesFromContributions(contributions) ==> DrawCount(n, DrawsPerPoint(contributions)) == 1 + 5 * n + (n - 2) + 4
  {
  }

  // ---------------------------------------------------------------------
  // The generator itself

  /** One iteration of the point loop: the draws of point i, in the source's order. */
  method DrawPoint(rng: Random, n: nat, i: nat, contributions: Option<seq<ContributionDay>>) returns (p: Point)
    requires n >= 2
    modifies rng
    ensures p == PointFrom(old(rng.state), n, i, contributions)
    ensures rng.state == Iterate(old(rng.state), DrawsPerPoint(contributions))
  {
    ghost var s := rng.state;
    var baseX := BaseX(i, n);
    var rx := rng.Next();
    IterateBounded(s, 1);
    var x := baseX + (Value(rx) - 0.5) * 40.0;
    var ry := rng.Next();
    IterateBounded(s, 2);
    var y := Height / 2.0 + (Value(ry) - 0.5) * 100.0;
    var rs := rng.Next();
    IterateBounded(s, 3);
    var size := 2.0 + Value(rs) * 3.0;
    if SizesFromContributions(contributions) {
      var contrib := contributions.value[i % |contributions.value|].contributionCount;
      var rc := rng.Next();
      IterateBounded(s, 4);
      size := 2.0 + Min(contrib as real / 3.0, 4.0) + Value(rc) * 2.0;
    }
    var ro := rng.Next();
    IterateBounded(s, DrawsPerPoint(contributions));
    var opacity := 0.5 + Value(ro) * 0.4;
    p := Point(x, y, size, opacity);
  }

  /** The point loop: n points, each from its own draws, in index order. */
  method DrawPoints(rng: Random, n: nat, contributions: Option<seq<ContributionDay>>, ghost seed: int)
    returns (points: seq<Point>)
    requires n >= 2 && rng.state == Iterate(seed, 1)
    modifies rng
    ensures |points| == n
    ensures forall k :: 0 <= k < n ==> points[k] == MakePoint(seed, n, k, contributions)
    ensures rng.state == Iterate(seed, SkipBase(n, DrawsPerPoint(contributions)))
  {
    ghost var per := DrawsPerPoint(contributions);
    points := [];
    var i := 0;
    while i < n
      invariant 0 <= i <= n
      invariant rng.state == Iterate(seed, PointBase(i, per))
      invariant |points| == i
      invariant forall k :: 0 <= k < i ==> points[k] == MakePoint(seed, n, k, contributions)
    {
      IterateAdd(seed, PointBase(i, per), per);
      var p := DrawPoint(rng, n, i, contributions);
      points := points + [p];
      i := i + 1;
    }
  }

  /** One iteration of the first connection loop, given whether its skip-one connection was taken. */
  lemma AdjacencyStep(seed: int, n: nat, per: nat, i: nat, taken: bool)
    requires taken == SkipTaken(seed, n, per, i)
    ensures AdjacencyPass(seed, n, per, i + 1) == AdjacencyPass(seed, n, per, i) + [Connection(i, i + 1)]
      + (if taken then [Connection(i, i + 2)] else [])
  {
  }

  /** One cross attempt made from the draws after position d, as the cross loop computes it. */
  lemma CrossStep(seed: int, n: nat, per: nat, j: nat, d: nat, from: int, to: int)
    requires n >= 2 && d == CrossBase(n, per) + 2 * j
    requires from == Pick(Iterate(seed, d + 1), n - 3)
    requires to == from + 2 + Pick(Iterate(seed, d + 2), 2)
    ensures CrossPass(seed, n, per, j + 1) == CrossPass(seed, n, per, j)
      + (if to < n then [Connection(from, to)] else [])
  {
    assert CrossAttempt(seed, n, per, j) == if to < n then [Connection(from, to)] else [];
  }

  /**
   * The first connection loop: always (i, i + 1); for i < n - 2 one more
   * draw, and (i, i + 2) when it exceeds the threshold.
   */
  method ConnectNeighbours(rng: Random, n: nat, ghost seed: int, ghost per: nat)
    returns (connections: seq<Connection>)
    requires n >= 2 && rng.state == Iterate(seed, SkipBase(n, per))
    modifies rng
    ensures connections == AdjacencyPass(seed, n, per, n - 1)
    ensures rng.state == Iterate(seed, CrossBase(n, per))
  {
    connections := [];
    var i := 0;
    ghost var d := SkipBase(n, per);
    while i < n - 1
      invariant 0 <= i <= n - 1
      invariant d == SkipBase(n, per) + (if i < n - 2 then i else n - 2)
      invariant rng.state == Iterate(seed, d)
      invariant connections == AdjacencyPass(seed, n, per, i)
    {
      connections := connections + [Connection(i, i + 1)];
      var taken := false;
      if i < n - 2 {
        var rk := rng.Next();
        IterateBounded(seed, d + 1);
        d := d + 1;
        taken := Value(rk) > SkipThreshold;
        SkipDrawIsThreshold(rk);
      }
      AdjacencyStep(seed, n, per, i, taken);
      if taken {
        connections := connections + [Connection(i, i + 2)];
      }
      i := i + 1;
    }
  }

  /** The cross loop: two attempts of two draws each, an out-of-range one dropped. */
  method ConnectAcross(rng: Random, n: nat, ghost seed: int, ghost per: nat)
    returns (cross: seq<Connection>)
    requires n >= 2 && rng.state == Iterate(seed, CrossBase(n, per))
    modifies rng
    ensures cross == CrossPass(seed, n, per, 2)
    ensures rng.state == Iterate(seed, DrawCount(n, per))
  {
    cross := [];
    var j := 0;
    ghost var d := CrossBase(n, per);
    while j < 2
      invariant 0 <= j <= 2
      invariant d == CrossBase(n, per) + 2 * j
      invariant rng.state == Iterate(seed, d)
      invariant cross == CrossPass(seed, n, per, j)
    {
      var rf := rng.Next();
      IterateBounded(seed, d + 1);
      var from := Pick(rf, n - 3);
      var rt := rng.Next();
      IterateBounded(seed, d + 2);
      var to := from + 2 + Pick(rt, 2);
      CrossStep(seed, n, per, j, d, from, to);
      if to < n {
        cross := cross + [Connection(from, to)];
      }
      d := d + 2;
      j := j + 1;
    }
  }

  /**
   * The body of `generateConstellation` after the seed: draws from rng in
   * the source's order and builds points and connections with three loops.
   */
  method Layout(rng: Random, contributions: Option<seq<ContributionDay>>) returns (c: Constellation)
    modifies rng
    ensures c == Generate(old(rng.state), contributions)
    ensures rng.state == Iterate(old(rng.state), DrawCount(|c.points|, DrawsPerPoint(contributions)))
  {
    ghost var seed := rng.state;
    ghost var per := DrawsPerPoint(contributions);

    var r := rng.Next();
    var n := Pick(r, 5) + 8;
    assert r == Iterate(seed, 1);
    assert n == PointCount(seed);

    var points := DrawPoints(rng, n, contributions, seed);
    assert points == Points(seed, contributions);
    var adjacency := ConnectNeighbours(rng, |points|, seed, per);
    var cross := ConnectAcross(rng, |points|, seed, per);
    c := Constellation(points, adjacency + cross);
  }

  /**
   * `generateConstellation` with the date passed in: the seed is derived,
   * a fresh generator is seeded with it and the layout is built.
   */
  method GenerateConstellation(year: int, month: int, day: int, contributions: Option<seq<ContributionDay>>)
    returns (c: Constellation)
    ensures c == Generate(DeriveSeed(year, month, day, contributions), contributions)
    ensures 8 <= |c.points| <= 12
    ensures WellFormed(c)
    ensures forall i :: 0 <= i < |c.points| - 1 ==> Linked(c, i)
    ensures |c.points| + 1 <= |c.connections| <= 2 * |c.points| - 1
    ensures forall i :: 0 <= i < |c.points| ==> 0.5 <= c.points[i].opacity < 0.9
    ensures forall i :: 0 <= i < |c.points| ==>
      BaseX(i, |c.points|) - 20.0 <= c.points[i].x < BaseX(i, |c.points|) + 20.0
    ensures forall i :: 0 <= i < |c.points| ==> 40.0 <= c.points[i].x < 760.0 && 50.0 <= c.points[i].y < 150.0
    ensures !SizesFromContributions(contributions) ==>
      forall i :: 0 <= i < |c.points| ==> 2.0 <= c.points[i].size < 5.0
    ensures SizesFromContributions(contributions) ==>
      forall i :: 0 <= i < |c.points| ==> c.points[i].size < 8.0
    ensures SizesFromContributions(contributions) && NonNegativeCounts(contributions.value) ==>
      forall i :: 0 <= i < |c.points| ==> 2.0 <= c.points[i].size
  {
    var seed := DeriveSeed(year, month, day, contributions);
    var rng := new Random(seed);
    c := Layout(rng, contributions);
    AdjacentConnected(seed, contributions);
    PointsInRange(seed, contributions);
  }
}
