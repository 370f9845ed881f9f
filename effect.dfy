/** The particle field's state, as the objects the program keeps.

    A `Particle` holds its own position, velocity, push, radius and friction and a
    reference to the `Effect` that owns it; its methods change those fields in
    place. The `Effect` owns the surface size, the pointer state and the growable
    list of particles. Each method is proved against the value-level functions of
    `Motion` and `Connections`. Every `Math.random()` draw is an input in [0, 1). */
module Effect {
  import opened Motion
  import opened Connections

  /** The number of particles the effect creates. */
  const NumOfParticles: nat := 200

  /** One value of `Math.random()`. */
  predicate Unit(u: real) {
    0.0 <= u < 1.0
  }

  /** The five draws a new particle makes, in the order it makes them. */
  datatype Draws = Draws(radius: real, x: real, y: real, vx: real, vy: real)

  predicate ValidDraws(u: Draws) {
    Unit(u.radius) && Unit(u.x) && Unit(u.y) && Unit(u.vx) && Unit(u.vy)
  }

  /** `Math.random() * span` */
  function Scale(u: real, span: real): real {
    u * span
  }

  /** A draw scales a non-negative span to a point of [0, span], short of `span`
      itself when the span is positive. */
  lemma ScaleBelow(u: real, span: real)
    requires Unit(u)
    ensures 0.0 <= span ==> 0.0 <= Scale(u, span) <= span
    ensures 0.0 < span ==> Scale(u, span) < span
  {
    if 0.0 <= span {
      NonNegativeProduct(u, span);
      NonNegativeProduct(1.0 - u, span);
      assert span - u * span == (1.0 - u) * span;
    }
  }

  lemma NonNegativeProduct(a: real, b: real)
    requires 0.0 <= a && 0.0 <= b
    ensures 0.0 <= a * b
  {
  }

  /** `Math.floor(Math.random() * 10 + 1)`: each radius 1 .. 10 takes a tenth of
      the draws, so the radius is uniform over {1, ..., 10}. */
  function RadiusFromDraw(u: real): (r: int)
    requires Unit(u)
    ensures 1 <= r <= 10
    ensures (r - 1) as real <= u * 10.0 < r as real
  {
    (u * 10.0 + 1.0).Floor
  }

  /** `Math.random() * 1 - 0.5` */
  function VelocityFromDraw(u: real): (v: real)
    requires Unit(u)
    ensures -0.5 <= v < 0.5
  {
    u * 1.0 - 0.5
  }

  /** `radius + Math.random() * (dim - radius * 2)`: a coordinate inside
      [radius, dim - radius] whenever the surface is at least `2 * radius` wide. */
  function Place(r: real, dim: real, u: real): (pos: real)
    requires Unit(u)
    ensures 2.0 * r <= dim ==> r <= pos <= dim - r
    ensures 2.0 * r < dim ==> pos < dim - r
    ensures u == 0.0 ==> pos == r
  {
    ScaleBelow(u, dim - r * 2.0);
    r + Scale(u, dim - r * 2.0)
  }

  /** The particle a fresh `new Particle(effect)` holds on a `w` by `h` surface. */
  function Spawn(u: Draws, w: real, h: real): (b: Body)
    requires ValidDraws(u)
    ensures 1.0 <= b.radius <= 10.0 && b.radius == b.radius.Floor as real
    ensures -0.5 <= b.vx < 0.5 && -0.5 <= b.vy < 0.5
    ensures b.pushX == 0.0 && b.pushY == 0.0 && b.friction == Friction
    // every radius fits a surface of at least 20 by 20 ...
    ensures 20.0 <= w && 20.0 <= h ==> Fits(b, w, h)
    // ... and a particle that fits starts inside
    ensures Fits(b, w, h) ==> Inside(b, w, h)
  {
    var r := RadiusFromDraw(u.radius) as real;
    Body(Place(r, w, u.x), Place(r, h, u.y), VelocityFromDraw(u.vx), VelocityFromDraw(u.vy), 0.0, 0.0, r, Friction)
  }

  /** A particle created on a surface of at least 20 by 20 never leaves it, whatever
      the pointer does over any number of frames. */
  lemma SpawnedStaysInside(u: Draws, w: real, h: real, fs: seq<Frame>)
    requires ValidDraws(u) && 20.0 <= w && 20.0 <= h && AllClear(fs)
    ensures Inside(Frames(Spawn(u, w, h), w, h, fs), w, h)
  {
    FramesStayInside(Spawn(u, w, h), w, h, fs);
  }

  class Particle {
    /** The effect that created the particle; its size and pointer drive `Update`
        and `Reset`. */
    const effect: Effect
    var radius: real
    var x: real
    var y: real
    var vx: real
    var vy: real
    var pushX: real
    var pushY: real
    var friction: real

    /** The particle's fields as a value. */
    function State(): Body
      reads this
    {
      Body(x, y, vx, vy, pushX, pushY, radius, friction)
    }

    constructor (effect: Effect, u: Draws)
      requires ValidDraws(u)
      ensures this.effect == effect
      ensures State() == Spawn(u, effect.width, effect.height)
    {
      this.effect := effect;
      var r := RadiusFromDraw(u.radius) as real;
      radius := r;
      x := Place(r, effect.width, u.x);
      y := Place(r, effect.height, u.y);
      vx := VelocityFromDraw(u.vx);
      vy := VelocityFromDraw(u.vy);
      pushX := 0.0;
      pushY := 0.0;
      friction := Friction;
    }

    /** One frame of motion. `d` is `Math.hypot` of the particle's offset from the
        pointer; the force `PointerRadius / d` is undefined when `d` is 0. */
    method Update(d: real)
      requires IsHypot(d, x - effect.pointer.x, y - effect.pointer.y)
      requires Clear(effect.pointer, d)
      modifies this
      ensures State() == Step(old(State()), effect.width, effect.height, effect.pointer, d)
    {
      ghost var b := State();
      var p := effect.pointer;
      if p.pressed {
        var dx := x - p.x;
        var dy := y - p.y;
        var force := PointerRadius / d;
        if d < PointerRadius {
          // cos(atan2(dy, dx)) and sin(atan2(dy, dx))
          var cos, sin := dx / d, dy / d;
          pushX := pushX + cos * force;
          pushY := pushY + sin * force;
        }
      }
      pushX := pushX * friction;
      x := x + pushX + vx;
      pushY := pushY * friction;
      y := y + pushY + vy;
      assert State() == Advance(b, p, d);
      BounceOffEdges();
    }

    /** The end of `update`: each axis is reflected off the surface's edges. */
    method BounceOffEdges()
      modifies this
      ensures State() == Bounce(old(State()), effect.width, effect.height)
    {
      ghost var a := State();
      if x < radius {
        x := radius;
        vx := vx * -1.0;
      } else if x > effect.width - radius {
        x := effect.width - radius;
        vx := vx * -1.0;
      }
      assert (x, vx) == BounceAxis(a.x, a.vx, a.radius, effect.width);

      if y < radius {
        y := radius;
        vy := vy * -1.0;
      } else if y > effect.height - radius {
        y := effect.height - radius;
        vy := vy * -1.0;
      }
      assert (y, vy) == BounceAxis(a.y, a.vy, a.radius, effect.height);
    }

    /** A new position inside the owning effect's current size; nothing else changes. */
    method Reset(ux: real, uy: real)
      requires Unit(ux) && Unit(uy)
      modifies this
      ensures State() == old(State()).(x := Place(radius, effect.width, ux), y := Place(radius, effect.height, uy))
    {
      x := radius + ux * (effect.width - radius * 2.0);
      y := radius + uy * (effect.height - radius * 2.0);
    }
  }

  class Effect {
    var width: real
    var height: real
    var particles: seq<Particle>
    const numOfParticles: nat
    var pointer: Pointer

    /** Every particle belongs to this effect, and no particle is listed twice. */
    ghost predicate Valid()
      reads this
    {
      (forall k :: 0 <= k < |particles| ==> particles[k].effect == this) &&
      (forall k, l :: 0 <= k < l < |particles| ==> particles[k] != particles[l])
    }

    /** Every particle fits the surface. */
    ghost predicate AllFit()
      reads this, particles
    {
      forall k :: 0 <= k < |particles| ==> Fits(particles[k].State(), width, height)
    }

    /** Every particle lies inside the surface. */
    ghost predicate AllInside()
      reads this, particles
    {
      forall k :: 0 <= k < |particles| ==> Inside(particles[k].State(), width, height)
    }

    /** The particles' positions, in list order. */
    function Positions(): seq<(real, real)>
      reads this, particles
    {
      seq(|particles|, k reads this, particles requires 0 <= k < |particles| => (particles[k].x, particles[k].y))
    }

    constructor (width: real, height: real, draws: seq<Draws>)
      requires |draws| == NumOfParticles
      requires forall k :: 0 <= k < |draws| ==> ValidDraws(draws[k])
      ensures Valid()
      ensures this.width == width && this.height == height && numOfParticles == NumOfParticles
      ensures |particles| == NumOfParticles
      ensures forall k :: 0 <= k < |particles| ==> fresh(particles[k])
      ensures forall k :: 0 <= k < |particles| ==> particles[k].State() == Spawn(draws[k], width, height)
      ensures pointer == Pointer(0.0, 0.0, false)
      ensures 20.0 <= width && 20.0 <= height ==> AllFit() && AllInside()
    {
      this.width := width;
      this.height := height;
      particles := [];
      numOfParticles := NumOfParticles;
      new;
      CreateParticles(draws);
      pointer := Pointer(0.0, 0.0, false);
    }

    /** Appends `numOfParticles` new particles, one per set of draws. */
    method CreateParticles(draws: seq<Draws>)
      requires Valid()
      requires |draws| == numOfParticles
      requires forall k :: 0 <= k < |draws| ==> ValidDraws(draws[k])
      modifies this
      ensures Valid()
      ensures width == old(width) && height == old(height) && pointer == old(pointer)
      ensures |particles| == |old(particles)| + numOfParticles
      ensures particles[..|old(particles)|] == old(particles)
      ensures forall k :: |old(particles)| <= k < |particles| ==>
        fresh(particles[k]) && particles[k].State() == Spawn(draws[k - |old(particles)|], width, height)
    {
      var i := 0;
      while i < numOfParticles
        invariant 0 <= i <= numOfParticles
        invariant Valid()
        invariant width == old(width) && height == old(height) && pointer == old(pointer)
        invariant |particles| == |old(particles)| + i
        invariant particles[..|old(particles)|] == old(particles)
        invariant forall k :: |old(particles)| <= k < |particles| ==>
          fresh(particles[k]) && particles[k].State() == Spawn(draws[k - |old(particles)|], width, height)
      {
        var p := new Particle(this, draws[i]);
        particles := particles + [p];
        i := i + 1;
      }
    }

    /** Updates every particle once, in list order (drawing is left out). `ds[k]` is
        particle k's distance to the pointer. */
    method HandleParticles(ds: seq<real>)
      requires Valid()
      requires |ds| == |particles|
      requires forall k :: 0 <= k < |particles| ==>
        IsHypot(ds[k], particles[k].x - pointer.x, particles[k].y - pointer.y) && Clear(pointer, ds[k])
      modifies particles
      ensures forall k :: 0 <= k < |particles| ==>
        particles[k].State() == Step(old(particles[k].State()), width, height, pointer, ds[k])
      ensures old(AllFit()) ==> AllFit() && AllInside()
    {
      var i := 0;
      while i < |particles|
        invariant 0 <= i <= |particles|
        invariant forall k :: 0 <= k < i ==>
          particles[k].State() == Step(old(particles[k].State()), width, height, pointer, ds[k])
        invariant forall k :: i <= k < |particles| ==> particles[k].State() == old(particles[k].State())
      {
        particles[i].Update(ds[i]);
        i := i + 1;
      }
    }

    /** The lines drawn between particles, in drawing order (the canvas calls are
        left out). `dist[i][j]` is the distance between particles i and j. */
    method ConnectParticles(dist: seq<seq<real>>) returns (lines: seq<Line>)
      requires DistanceTable(dist, Positions())
      ensures Table(dist) && lines == Drawn(dist, |particles|, |particles|)
    {
      var n := |particles|;
      SelfDistanceZero(dist, Positions());
      lines := [];
      var i := 0;
      while i < n
        invariant 0 <= i <= n
        invariant lines == Drawn(dist, i, i)
      {
        var j := i;
        while j < n
          invariant i <= j <= n
          invariant lines == Drawn(dist, i, j)
        {
          var d := dist[i][j];
          if d < MaxDistance {
            var opacity := Opacity(d);
            lines := lines + [Line(i, j, opacity)];
          }
          j := j + 1;
        }
        i := i + 1;
      }
    }

    /** The new size, and every particle placed anew inside it; `us[k]` are particle
        k's two draws. Radii, velocities, pushes and frictions are kept. */
    method Resize(width: real, height: real, us: seq<(real, real)>)
      requires Valid()
      requires |us| == |particles|
      requires forall k :: 0 <= k < |us| ==> Unit(us[k].0) && Unit(us[k].1)
      modifies this, particles
      ensures Valid()
      ensures this.width == width && this.height == height
      ensures particles == old(particles) && pointer == old(pointer)
      ensures forall k :: 0 <= k < |particles| ==>
        particles[k].State() == old(particles[k].State()).(
          x := Place(old(particles[k].radius), width, us[k].0),
          y := Place(old(particles[k].radius), height, us[k].1))
      ensures AllFit() ==> AllInside()
    {
      this.width := width;
      this.height := height;
      var i := 0;
      while i < |particles|
        invariant 0 <= i <= |particles|
        invariant particles == old(particles) && pointer == old(pointer)
        invariant this.width == width && this.height == height
        invariant forall k :: 0 <= k < i ==>
          particles[k].State() == old(particles[k].State()).(
            x := Place(old(particles[k].radius), width, us[k].0),
            y := Place(old(particles[k].radius), height, us[k].1))
        invariant forall k :: i <= k < |particles| ==> particles[k].State() == old(particles[k].State())
      {
        particles[i].Reset(us[i].0, us[i].1);
        i := i + 1;
      }
    }

    /** `pointermove`: the pointer follows only while pressed. */
    method PointerMove(x: real, y: real)
      modifies this`pointer
      ensures pointer == if old(pointer).pressed then Pointer(x, y, true) else old(pointer)
    {
      if pointer.pressed {
        pointer := pointer.(x := x, y := y);
      }
    }

    /** `pointerdown` */
    method PointerDown(x: real, y: real)
      modifies this`pointer
      ensures pointer == Pointer(x, y, true)
    {
      pointer := pointer.(pressed := true, x := x, y := y);
    }

    /** `pointerup`: the position is kept. */
    method PointerUp()
      modifies this`pointer
      ensures pointer == old(pointer).(pressed := false)
    {
      pointer := pointer.(pressed := false);
    }

    /** One animation frame: the connecting lines, then every particle's update. */
    method Animate(dist: seq<seq<real>>, ds: seq<real>) returns (lines: seq<Line>)
      requires Valid()
      requires DistanceTable(dist, Positions())
      requires |ds| == |particles|
      requires forall k :: 0 <= k < |particles| ==>
        IsHypot(ds[k], particles[k].x - pointer.x, particles[k].y - pointer.y) && Clear(pointer, ds[k])
      modifies particles
      ensures Table(dist) && lines == Drawn(dist, |particles|, |particles|)
      ensures forall k :: 0 <= k < |particles| ==>
        particles[k].State() == Step(old(particles[k].State()), width, height, pointer, ds[k])
      ensures old(AllFit()) ==> AllFit() && AllInside()
    {
      lines := ConnectParticles(dist);
      HandleParticles(ds);
    }
  }
}
