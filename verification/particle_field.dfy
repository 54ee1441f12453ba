/** The hero-canvas particle field: the canvas size, the particles created
    for it, and one animation frame (move every particle, then compute the
    connecting lines). Drawing itself is not modelled. */
module ParticleField {
  import opened Particles
  import opened Connections

  /** At most this many particles, whatever the canvas size. */
  const MaxParticles: nat := 100

  /** One particle per this many square pixels of canvas. */
  const AreaPerParticle: nat := 10000

  /** `Math.min(100, Math.floor(width * height / 10000))`. */
  function ParticleCount(width: nat, height: nat): (n: nat)
    ensures n <= MaxParticles
    ensures n * AreaPerParticle <= width * height
    ensures n < MaxParticles ==> width * height < (n + 1) * AreaPerParticle
    ensures n == MaxParticles <==> MaxParticles * AreaPerParticle <= width * height
    ensures width == 0 || height == 0 ==> n == 0
  {
    var perArea := (width * height) / AreaPerParticle;
    if perArea < MaxParticles then perArea else MaxParticles
  }

  /** An 800 by 600 canvas gets 48 particles; a hidden (zero-area) one none. */
  lemma ParticleCountExamples()
    ensures ParticleCount(800, 600) == 48
    ensures ParticleCount(0, 600) == 0
    ensures ParticleCount(1920, 1080) == 100
  {
  }

  /** Every value `Math.random()` can return, one draw per particle. */
  ghost predicate RandomStream(random: nat -> Draw)
  {
    forall k :: IsDraw(random(k))
  }

  class ParticleField {
    /** `canvas.width` and `canvas.height`, in pixels. */
    var width: nat
    var height: nat
    /** The global `particles` array. */
    var particles: seq<Particle>

    ghost predicate Valid()
      reads this
    {
      |particles| <= MaxParticles
    }

    /** `initialize3DCanvas`: size the canvas from its layout box, then push
        `ParticleCount` new particles, the k-th built from the k-th draw. */
    constructor (clientWidth: nat, clientHeight: nat, dark: bool, random: nat -> Draw)
      requires RandomStream(random)
      ensures Valid()
      ensures width == clientWidth && height == clientHeight
      ensures |particles| == ParticleCount(clientWidth, clientHeight)
      ensures forall k :: 0 <= k < |particles| ==> particles[k] == NewParticle(random(k), width, height, dark)
      ensures forall k :: 0 <= k < |particles| ==> SoftBounded(particles[k], width, height)
    {
      width, height := clientWidth, clientHeight;
      particles := [];
      new;
      var count := ParticleCount(width, height);
      var k := 0;
      while k < count
        invariant 0 <= k <= count
        invariant width == clientWidth && height == clientHeight
        invariant |particles| == k
        invariant forall m :: 0 <= m < k ==> particles[m] == NewParticle(random(m), width, height, dark)
      {
        particles := particles + [NewParticle(random(k), width, height, dark)];
        k := k + 1;
      }
      forall m | 0 <= m < |particles|
        ensures SoftBounded(particles[m], width, height)
      {
        OnCanvasIsSoftBounded(particles[m], width, height);
      }
    }

    /** `setCanvasSize` on a window resize: the canvas takes its new size but
        the particles are neither recounted nor moved. */
    method Resize(clientWidth: nat, clientHeight: nat)
      requires Valid()
      modifies this`width, this`height
      ensures Valid()
      ensures width == clientWidth && height == clientHeight
      ensures particles == old(particles)
    {
      width, height := clientWidth, clientHeight;
    }

    /** `drawConnections`: visit every pair i < j and emit a line for the
        pairs closer than 100. */
    method DrawConnections(sqrt: real -> real) returns (links: seq<Link>, ghost visited: seq<(nat, nat)>)
      ensures visited == Pairs(|particles|)
      ensures links == Links(particles, sqrt)
    {
      var ps := particles;
      var n := |ps|;
      links := [];
      visited := [];
      var i := 0;
      while i < n
        invariant 0 <= i <= n
        invariant visited == PairsBefore(n, i)
        invariant links == LinksUpTo(ps, sqrt, i, i + 1)
      {
        var j := i + 1;
        while j < n
          invariant i + 1 <= j <= n
          invariant visited == PairsBefore(n, i) + RowPairs(i, j)
          invariant links == LinksUpTo(ps, sqrt, i, j)
        {
          var distance := Distance(ps[i], ps[j], sqrt);
          if distance < LinkRange {
            links := links + [Link(i, j, Opacity(distance))];
          }
          visited := visited + [(i, j)];
          j := j + 1;
        }
        i := i + 1;
      }
    }

    /** One frame of `animate`: update every particle in order, then compute
        the connecting lines among the updated particles. */
    method Tick(sqrt: real -> real) returns (links: seq<Link>)
      requires Valid()
      modifies this`particles
      ensures Valid()
      ensures |particles| == |old(particles)|
      ensures forall k :: 0 <= k < |particles| ==> particles[k] == Step(old(particles)[k], width, height)
      ensures (forall k :: 0 <= k < |particles| ==> SoftBounded(old(particles)[k], width, height)) ==>
                forall k :: 0 <= k < |particles| ==> SoftBounded(particles[k], width, height)
      ensures links == Links(particles, sqrt)
    {
      var i := 0;
      while i < |particles|
        invariant 0 <= i <= |particles| == |old(particles)|
        invariant forall k :: 0 <= k < i ==> particles[k] == Step(old(particles)[k], width, height)
        invariant forall k :: i <= k < |particles| ==> particles[k] == old(particles)[k]
      {
        var updated := Update(particles[i], width, height);
        particles := particles[i := updated];
        i := i + 1;
      }
      if forall k :: 0 <= k < |particles| ==> SoftBounded(old(particles)[k], width, height) {
        forall k | 0 <= k < |particles|
          ensures SoftBounded(particles[k], width, height)
        {
          StepKeepsSoftBound(old(particles)[k], width, height);
        }
      }
      ghost var visited;
      links, visited := DrawConnections(sqrt);
    }
  }
}
