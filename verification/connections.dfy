/** The connection rule of the hero-canvas background: every unordered pair
    of particles closer than 100 canvas units is joined by a line whose
    opacity falls linearly with distance. The square root the script takes is
    a parameter here. */
module Connections {
  import opened Particles

  /** Pairs closer than this are joined. */
  const LinkRange: real := 100.0

  /** A line drawn between particles `i` and `j`. */
  datatype Link = Link(i: nat, j: nat, opacity: real)

  /** `sqrt` behaves as the square root on non-negative numbers. */
  ghost predicate IsSqrt(sqrt: real -> real)
  {
    forall r :: 0.0 <= r ==> 0.0 <= sqrt(r) && sqrt(r) * sqrt(r) == r
  }

  function SquaredDistance(p: Particle, q: Particle): real
  {
    (p.x - q.x) * (p.x - q.x) + (p.y - q.y) * (p.y - q.y)
  }

  function Distance(p: Particle, q: Particle, sqrt: real -> real): real
  {
    sqrt(SquaredDistance(p, q))
  }

  /** The line opacity for a pair at distance `d`. */
  function Opacity(d: real): (o: real)
    ensures 0.0 <= d < LinkRange ==> 0.0 < o <= 1.0
    ensures d == 0.0 ==> o == 1.0
    ensures d == LinkRange ==> o == 0.0
  {
    1.0 - d / LinkRange
  }

  /** The further apart, the fainter the line. */
  lemma OpacityDecreasing(d1: real, d2: real)
    requires d1 < d2
    ensures Opacity(d2) < Opacity(d1)
  {
  }

  lemma ProductBelow(a: real, b: real)
    requires 0.0 <= a < b
    ensures a * a < b * b
  {
    var gap, sum := b - a, b + a;
    assert 0.0 < gap && 0.0 < sum;
    assert 0.0 < gap * sum;
    assert b * b - a * a == gap * sum;
  }

  /** With a true square root, the range test on the distance is the same as
      a test on the squared distance, so no pair is joined because of the
      root. */
  lemma {:induction false} InRangeIffSquared(p: Particle, q: Particle, sqrt: real -> real)
    requires IsSqrt(sqrt)
    ensures 0.0 <= Distance(p, q, sqrt)
    ensures Distance(p, q, sqrt) < LinkRange <==> SquaredDistance(p, q) < LinkRange * LinkRange
  {
    var s := SquaredDistance(p, q);
    assert 0.0 <= s;
    var d := sqrt(s);
    assert 0.0 <= d && d * d == s;
    if d < LinkRange {
      ProductBelow(d, LinkRange);
    } else {
      assert LinkRange * LinkRange <= d * d by {
        if LinkRange < d { ProductBelow(LinkRange, d); }
      }
    }
  }

  // ---- The pairs the nested loop visits, in visiting order ----

  /** Row `i` of the loop up to (not including) column `j`: (i, i+1) ... (i, j-1). */
  function RowPairs(i: nat, j: nat): seq<(nat, nat)>
    decreases j
  {
    if j <= i + 1 then [] else RowPairs(i, j - 1) + [(i, j - 1)]
  }

  /** Rows 0 .. i-1 of the loop over `n` particles. */
  function PairsBefore(n: nat, i: nat): seq<(nat, nat)>
    decreases i
  {
    if i == 0 then [] else PairsBefore(n, i - 1) + RowPairs(i - 1, n)
  }

  /** Every pair the loop over `n` particles visits, in order. */
  function Pairs(n: nat): seq<(nat, nat)>
  {
    PairsBefore(n, n)
  }

  predicate PairLess(a: (nat, nat), b: (nat, nat))
  {
    a.0 < b.0 || (a.0 == b.0 && a.1 < b.1)
  }

  /** Strictly increasing in row-major order, hence no pair repeats. */
  predicate Increasing(ps: seq<(nat, nat)>)
  {
    forall a, b :: 0 <= a < b < |ps| ==> PairLess(ps[a], ps[b])
  }

  lemma {:induction false} RowPairsAt(i: nat, j: nat)
    ensures |RowPairs(i, j)| == if j <= i + 1 then 0 else j - i - 1
    ensures forall k :: 0 <= k < |RowPairs(i, j)| ==> RowPairs(i, j)[k] == (i, i + 1 + k)
    decreases j
  {
    if j > i + 1 {
      RowPairsAt(i, j - 1);
    }
  }

  lemma {:induction false} PairsBeforeShape(n: nat, i: nat)
    ensures Increasing(PairsBefore(n, i))
    ensures forall k :: 0 <= k < |PairsBefore(n, i)| ==>
      PairsBefore(n, i)[k].0 < i && PairsBefore(n, i)[k].0 < PairsBefore(n, i)[k].1 < n
    ensures forall a: nat, b: nat :: a < i && a < b < n ==> (a, b) in PairsBefore(n, i)
    decreases i
  {
    if i > 0 {
      PairsBeforeShape(n, i - 1);
      RowPairsAt(i - 1, n);
      var left, row := PairsBefore(n, i - 1), RowPairs(i - 1, n);
      assert PairsBefore(n, i) == left + row;
      forall a: nat, b: nat | a < i && a < b < n
        ensures (a, b) in left + row
      {
        if a < i - 1 {
          assert (a, b) in left;
        } else {
          assert row[b - i] == (a, b);
        }
      }
    }
  }

  /** The nested loop over `n` particles visits exactly the pairs (i, j) with
      i < j < n, so never a particle with itself, and each of them once. */
  lemma PairsVisitedOnce(n: nat)
    ensures Increasing(Pairs(n))
    ensures forall a: nat, b: nat :: (a, b) in Pairs(n) <==> a < b < n
  {
    PairsBeforeShape(n, n);
    forall a: nat, b: nat | (a, b) in Pairs(n)
      ensures a < b < n
    {
      var k :| 0 <= k < |Pairs(n)| && Pairs(n)[k] == (a, b);
    }
  }

  // ---- The lines the loop draws ----

  /** The line drawn (if any) when the loop visits the pair (i, j); the loop
      only visits indices of the array. */
  function LinkAt(particles: seq<Particle>, sqrt: real -> real, i: nat, j: nat): seq<Link>
  {
    if i < |particles| && j < |particles| && Distance(particles[i], particles[j], sqrt) < LinkRange
    then [Link(i, j, Opacity(Distance(particles[i], particles[j], sqrt)))]
    else []
  }

  /** The lines drawn once the loop has finished rows 0 .. i-1 and visited
      row `i` up to (not including) column `j`, in drawing order. */
  function LinksUpTo(particles: seq<Particle>, sqrt: real -> real, i: nat, j: nat): seq<Link>
    decreases i, j
  {
    if j <= i + 1 then
      if i == 0 then [] else LinksUpTo(particles, sqrt, i - 1, |particles|)
    else
      LinksUpTo(particles, sqrt, i, j - 1) + LinkAt(particles, sqrt, i, j - 1)
  }

  /** The lines one run of `drawConnections` draws: all rows done. */
  function Links(particles: seq<Particle>, sqrt: real -> real): seq<Link>
  {
    if |particles| == 0 then [] else LinksUpTo(particles, sqrt, |particles| - 1, |particles|)
  }

  /** A line for the pair (l.i, l.j) is in range and carries the opacity of
      that pair's distance. */
  predicate LinkFor(particles: seq<Particle>, sqrt: real -> real, l: Link)
  {
    && l.i < l.j < |particles|
    && Distance(particles[l.i], particles[l.j], sqrt) < LinkRange
    && l.opacity == Opacity(Distance(particles[l.i], particles[l.j], sqrt))
  }

  /** The pair (a, b) comes before position (i, j) of the loop. */
  predicate VisitedBefore(a: nat, b: nat, i: nat, j: nat)
  {
    a < i || (a == i && b < j)
  }

  predicate LinksIncreasing(ls: seq<Link>)
  {
    forall a, b :: 0 <= a < b < |ls| ==> PairLess((ls[a].i, ls[a].j), (ls[b].i, ls[b].j))
  }

  /** Every line drawn up to position (i, j) is in range, carries its
      pair's opacity and belongs to an already visited pair. */
  lemma {:induction false} LinksUpToSound(particles: seq<Particle>, sqrt: real -> real, i: nat, j: nat)
    ensures forall l :: l in LinksUpTo(particles, sqrt, i, j) ==>
      LinkFor(particles, sqrt, l) && VisitedBefore(l.i, l.j, i, j)
    decreases i, j
  {
    if j <= i + 1 {
      if i > 0 {
        LinksUpToSound(particles, sqrt, i - 1, |particles|);
      }
    } else {
      LinksUpToSound(particles, sqrt, i, j - 1);
    }
  }

  /** Every visited pair in range has its line by position (i, j). */
  lemma {:induction false} LinksUpToComplete(particles: seq<Particle>, sqrt: real -> real, i: nat, j: nat)
    ensures forall a: nat, b: nat ::
      a < b < |particles| && VisitedBefore(a, b, i, j) && Distance(particles[a], particles[b], sqrt) < LinkRange ==>
      Link(a, b, Opacity(Distance(particles[a], particles[b], sqrt))) in LinksUpTo(particles, sqrt, i, j)
    decreases i, j
  {
    if j <= i + 1 {
      if i > 0 {
        LinksUpToComplete(particles, sqrt, i - 1, |particles|);
      }
    } else {
      LinksUpToComplete(particles, sqrt, i, j - 1);
    }
  }

  /** Lines come out in strictly increasing pair order, so no pair twice. */
  lemma {:induction false} LinksUpToIncreasing(particles: seq<Particle>, sqrt: real -> real, i: nat, j: nat)
    ensures LinksIncreasing(LinksUpTo(particles, sqrt, i, j))
    decreases i, j
  {
    if j <= i + 1 {
      if i > 0 {
        LinksUpToIncreasing(particles, sqrt, i - 1, |particles|);
      }
    } else {
      LinksUpToIncreasing(particles, sqrt, i, j - 1);
      LinksUpToSound(particles, sqrt, i, j - 1);
      var front, last := LinksUpTo(particles, sqrt, i, j - 1), LinkAt(particles, sqrt, i, j - 1);
      assert LinksUpTo(particles, sqrt, i, j) == front + last;
      forall a, b | 0 <= a < |front| && 0 <= b < |last|
        ensures PairLess((front[a].i, front[a].j), (last[b].i, last[b].j))
      {
        assert front[a] in front;
      }
    }
  }

  /** Every line one `drawConnections` run draws joins a pair i < j of
      particles closer than 100 and carries the opacity 1 - d/100. */
  lemma ConnectionsSound(particles: seq<Particle>, sqrt: real -> real)
    ensures forall l :: l in Links(particles, sqrt) ==> LinkFor(particles, sqrt, l)
  {
    var n := |particles|;
    if n > 0 {
      LinksUpToSound(particles, sqrt, n - 1, n);
    }
  }

  /** Every pair i < j of particles closer than 100 gets its line. */
  lemma ConnectionsComplete(particles: seq<Particle>, sqrt: real -> real)
    ensures forall i: nat, j: nat :: i < j < |particles| && Distance(particles[i], particles[j], sqrt) < LinkRange ==>
      Link(i, j, Opacity(Distance(particles[i], particles[j], sqrt))) in Links(particles, sqrt)
  {
    var n := |particles|;
    if n > 0 {
      LinksUpToComplete(particles, sqrt, n - 1, n);
    }
  }

  /** The lines come out in row-major pair order, so no pair is joined twice. */
  lemma ConnectionsOrdered(particles: seq<Particle>, sqrt: real -> real)
    ensures LinksIncreasing(Links(particles, sqrt))
  {
    var n := |particles|;
    if n > 0 {
      LinksUpToIncreasing(particles, sqrt, n - 1, n);
    }
  }

  /** With a true square root every line drawn has an opacity in (0, 1]. */
  lemma LinkOpacityInRange(particles: seq<Particle>, sqrt: real -> real)
    requires IsSqrt(sqrt)
    ensures forall l :: l in Links(particles, sqrt) ==> 0.0 < l.opacity <= 1.0
  {
    ConnectionsSound(particles, sqrt);
    forall l | l in Links(particles, sqrt)
      ensures 0.0 < l.opacity <= 1.0
    {
      InRangeIffSquared(particles[l.i], particles[l.j], sqrt);
    }
  }
}
