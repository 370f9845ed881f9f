/** The per-frame motion of one particle, as values.

    A `Body` is the record a particle carries (position, velocity, pointer push,
    radius and friction). `Step` is one call of the particle's update: the pointer
    phase, friction and movement (`Advance`), then the reflection off the walls
    (`Bounce`). JavaScript doubles are idealised as `real`. */
module Motion {

  /** The friction every particle is created with. */
  const Friction: real := 0.85

  /** The fixed radius of the pointer's force field. */
  const PointerRadius: real := 150.0

  datatype Body = Body(
    x: real, y: real,
    vx: real, vy: real,
    pushX: real, pushY: real,
    radius: real,
    friction: real)

  /** The shared pointer state; its radius is the constant `PointerRadius`. */
  datatype Pointer = Pointer(x: real, y: real, pressed: bool)

  function Abs(v: real): real {
    if v < 0.0 then -v else v
  }

  /** `d` is the Euclidean length of (dx, dy), the value `Math.hypot(dx, dy)` stands for. */
  predicate IsHypot(d: real, dx: real, dy: real) {
    d >= 0.0 && d * d == dx * dx + dy * dy
  }

  /** The particle lies inside the `w` by `h` surface, edges reduced by its radius. */
  predicate Inside(b: Body, w: real, h: real) {
    b.radius <= b.x <= w - b.radius && b.radius <= b.y <= h - b.radius
  }

  /** The surface is wide and high enough for the particle to fit. */
  predicate Fits(b: Body, w: real, h: real) {
    2.0 * b.radius <= w && 2.0 * b.radius <= h
  }

  // ---------------------------------------------------------------------------
  // Pointer repulsion. The distance `d` from the particle to the pointer is an
  // input: it is `Math.hypot` of the offset, a square root.

  /** The force is `PointerRadius / distance`, so it is undefined when the particle
      sits exactly under a pressed pointer. */
  predicate Clear(p: Pointer, d: real) {
    !(p.pressed && d == 0.0)
  }

  /** The pointer is pressed and the particle is strictly within its radius. */
  predicate Repels(p: Pointer, d: real) {
    p.pressed && d < PointerRadius
  }

  /** The push added by the pointer for an offset (dx, dy) from it at distance `d`:
      (cos(angle) * force, sin(angle) * force) with angle = atan2(dy, dx) and
      force = PointerRadius / d, where cos(angle) = dx / d and sin(angle) = dy / d. */
  function Repulsion(dx: real, dy: real, d: real): (k: (real, real))
    requires d != 0.0
    // the push lies along the offset from the pointer ...
    ensures k.0 * dy == k.1 * dx
    // ... and points away from it: its dot product with the offset is `PointerRadius`,
    // so its component along the offset is the force `PointerRadius / d`
    ensures IsHypot(d, dx, dy) ==> k.0 * dx + k.1 * dy == PointerRadius
  {
    UnitDirection(dx, dy, d, PointerRadius / d);
    assert (PointerRadius / d) * d == PointerRadius;
    var force := PointerRadius / d;
    var cos, sin := dx / d, dy / d;
    (cos * force, sin * force)
  }

  /** The repulsion lies along the offset from the pointer, points away from it with
      the full force `PointerRadius / d` along it, and has that force as magnitude. */
  lemma RepulsionPointsAway(dx: real, dy: real, d: real)
    requires IsHypot(d, dx, dy) && d != 0.0
    ensures var k := Repulsion(dx, dy, d);
      k.0 * dy == k.1 * dx &&
      k.0 * dx + k.1 * dy == PointerRadius &&
      (k.0 * k.0 + k.1 * k.1) * (d * d) == PointerRadius * PointerRadius
  {
    UnitDirection(dx, dy, d, PointerRadius / d);
  }

  /** (dx / d, dy / d) is parallel to (dx, dy), and a unit vector when d is its length. */
  lemma UnitDirection(dx: real, dy: real, d: real, f: real)
    requires d != 0.0
    ensures (dx / d * f) * dy == (dy / d * f) * dx
    ensures IsHypot(d, dx, dy) ==> (dx / d * f) * dx + (dy / d * f) * dy == f * d
    ensures IsHypot(d, dx, dy) ==>
      ((dx / d * f) * (dx / d * f) + (dy / d * f) * (dy / d * f)) * (d * d) == f * f * (d * d)
  {
  }

  // ---------------------------------------------------------------------------
  // One update

  /** The pointer phase, then `push *= friction` and `position += push + velocity`;
      `d` is the distance from the particle to the pointer. */
  function Advance(b: Body, p: Pointer, d: real): (a: Body)
    requires Clear(p, d)
    ensures a.vx == b.vx && a.vy == b.vy && a.radius == b.radius && a.friction == b.friction
    // the particle moves by its decayed push plus its velocity
    ensures a.x == b.x + a.pushX + b.vx && a.y == b.y + a.pushY + b.vy
    // outside a pressed pointer's field the push only decays
    ensures !Repels(p, d) ==> a.pushX == b.pushX * b.friction && a.pushY == b.pushY * b.friction
    // inside it, the repulsion is added before the decay
    ensures Repels(p, d) ==>
      var k := Repulsion(b.x - p.x, b.y - p.y, d);
      a.pushX == (b.pushX + k.0) * b.friction && a.pushY == (b.pushY + k.1) * b.friction
  {
    var push :=
      if Repels(p, d) then
        var k := Repulsion(b.x - p.x, b.y - p.y, d);
        (b.pushX + k.0, b.pushY + k.1)
      else
        (b.pushX, b.pushY);
    var px := push.0 * b.friction;
    var py := push.1 * b.friction;
    b.(x := b.x + px + b.vx, y := b.y + py + b.vy, pushX := px, pushY := py)
  }

  /** Reflection on one axis: a coordinate below `r` is set to `r`, otherwise one
      above `dim - r` is set to `dim - r`; either way the velocity is negated. */
  function BounceAxis(pos: real, v: real, r: real, dim: real): (res: (real, real))
    // below the lower bound the coordinate is moved up to it ...
    ensures pos < r ==> res == (r, -v)
    // ... and otherwise, above the upper bound, down to that one
    ensures r <= pos && dim - r < pos ==> res == (dim - r, -v)
    // on a surface at least `2r` wide the coordinate ends inside [r, dim - r]
    ensures 2.0 * r <= dim ==> r <= res.0 <= dim - r
    // a coordinate already inside is kept, with its velocity
    ensures r <= pos <= dim - r ==> res == (pos, v)
    // a coordinate outside is moved and its velocity negated
    ensures !(r <= pos <= dim - r) ==> res.1 == -v && res.0 != pos
    ensures Abs(res.1) == Abs(v)
  {
    if pos < r then (r, v * -1.0)
    else if pos > dim - r then (dim - r, v * -1.0)
    else (pos, v)
  }

  /** On a surface at least `2r` wide the reflection moves a coordinate to the
      nearest point of [r, dim - r]: no point of the interval is closer. */
  lemma BounceAxisNearest(pos: real, v: real, r: real, dim: real, q: real)
    requires 2.0 * r <= dim && r <= q <= dim - r
    ensures Abs(BounceAxis(pos, v, r, dim).0 - pos) <= Abs(q - pos)
  {
  }

  /** Both axes are reflected independently and unconditionally. */
  function Bounce(a: Body, w: real, h: real): (r: Body)
    ensures Fits(a, w, h) ==> Inside(r, w, h)
    ensures r.pushX == a.pushX && r.pushY == a.pushY
    ensures r.radius == a.radius && r.friction == a.friction
    ensures Abs(r.vx) == Abs(a.vx) && Abs(r.vy) == Abs(a.vy)
  {
    var (x, vx) := BounceAxis(a.x, a.vx, a.radius, w);
    var (y, vy) := BounceAxis(a.y, a.vy, a.radius, h);
    a.(x := x, y := y, vx := vx, vy := vy)
  }

  /** One call of the particle's update on a `w` by `h` surface. */
  function Step(b: Body, w: real, h: real, p: Pointer, d: real): (r: Body)
    requires Clear(p, d)
    // the particle stays inside the surface whenever it fits in it
    ensures Fits(b, w, h) ==> Inside(r, w, h)
    ensures Abs(r.vx) == Abs(b.vx) && Abs(r.vy) == Abs(b.vy)
    ensures r.radius == b.radius && r.friction == b.friction
    ensures !Repels(p, d) ==> r.pushX == b.pushX * b.friction && r.pushY == b.pushY * b.friction
  {
    Bounce(Advance(b, p, d), w, h)
  }

  /** On each axis the velocity is negated exactly when the advanced coordinate left
      [radius, dim - radius], and the coordinate is kept exactly when it did not. */
  lemma StepFlipsExactlyWhenClamped(b: Body, w: real, h: real, p: Pointer, d: real)
    requires Clear(p, d)
    ensures var a, r := Advance(b, p, d), Step(b, w, h, p, d);
      (r.vx == if b.radius <= a.x <= w - b.radius then b.vx else -b.vx) &&
      (r.vy == if b.radius <= a.y <= h - b.radius then b.vy else -b.vy) &&
      (r.x == a.x <==> b.radius <= a.x <= w - b.radius) &&
      (r.y == a.y <==> b.radius <= a.y <= h - b.radius)
  {
  }

  /** With no repulsion, the coordinate before clamping is `x + pushX * friction + vx`. */
  lemma NoRepulsionOnlyDecays(b: Body, w: real, h: real, p: Pointer, d: real)
    requires Clear(p, d) && !Repels(p, d)
    ensures var a := Advance(b, p, d);
      a.x == b.x + b.pushX * b.friction + b.vx && a.y == b.y + b.pushY * b.friction + b.vy
    ensures Step(b, w, h, p, d).pushX == b.pushX * b.friction
    ensures Step(b, w, h, p, d).pushY == b.pushY * b.friction
  {
  }

  /** A particle resting on the left edge and moving left, with no push and the
      pointer released, stays on the edge and now moves right at the same speed. */
  lemma LeftEdgeBounce(b: Body, w: real, h: real, p: Pointer, d: real)
    requires !p.pressed && b.pushX == 0.0
    requires b.x == b.radius && b.vx < 0.0
    ensures Step(b, w, h, p, d).x == b.radius
    ensures Step(b, w, h, p, d).vx == Abs(b.vx) > 0.0
  {
  }

  /** The same at the right edge, on a surface the particle fits across. */
  lemma RightEdgeBounce(b: Body, w: real, h: real, p: Pointer, d: real)
    requires !p.pressed && b.pushX == 0.0
    requires b.x == w - b.radius && b.vx > 0.0 && 2.0 * b.radius <= w
    ensures Step(b, w, h, p, d).x == w - b.radius
    ensures Step(b, w, h, p, d).vx == -Abs(b.vx) < 0.0
  {
  }

  /** The same at the top edge. */
  lemma TopEdgeBounce(b: Body, w: real, h: real, p: Pointer, d: real)
    requires !p.pressed && b.pushY == 0.0
    requires b.y == b.radius && b.vy < 0.0
    ensures Step(b, w, h, p, d).y == b.radius
    ensures Step(b, w, h, p, d).vy == Abs(b.vy) > 0.0
  {
  }

  /** The same at the bottom edge, on a surface the particle fits down. */
  lemma BottomEdgeBounce(b: Body, w: real, h: real, p: Pointer, d: real)
    requires !p.pressed && b.pushY == 0.0
    requires b.y == h - b.radius && b.vy > 0.0 && 2.0 * b.radius <= h
    ensures Step(b, w, h, p, d).y == h - b.radius
    ensures Step(b, w, h, p, d).vy == -Abs(b.vy) < 0.0
  {
  }

  /** On a surface narrower than the particle, the `else if` branch clamps the
      coordinate to `w - radius`, which lies below `radius`: the edge bound needs
      `w >= 2 * radius`. */
  lemma NarrowSurfaceEscapes(b: Body, w: real, h: real, p: Pointer, d: real)
    requires Clear(p, d) && w < 2.0 * b.radius
    requires Advance(b, p, d).x >= b.radius
    ensures Step(b, w, h, p, d).x == w - b.radius < b.radius
  {
  }

  // ---------------------------------------------------------------------------
  // Many frames

  /** What one frame's update reads from outside the particle: the pointer and the
      particle's distance to it. */
  datatype Frame = Frame(pointer: Pointer, distance: real)

  /** The pointer never sits exactly on the particle while pressed. */
  predicate AllClear(fs: seq<Frame>) {
    forall k :: 0 <= k < |fs| ==> Clear(fs[k].pointer, fs[k].distance)
  }

  /** The particle after one update per frame of `fs`, in order. */
  function Frames(b: Body, w: real, h: real, fs: seq<Frame>): Body
    requires AllClear(fs)
    decreases |fs|
  {
    if fs == [] then b
    else Frames(Step(b, w, h, fs[0].pointer, fs[0].distance), w, h, fs[1..])
  }

  predicate Released(fs: seq<Frame>) {
    forall k :: 0 <= k < |fs| ==> !fs[k].pointer.pressed
  }

  function Pow(f: real, n: nat): real {
    if n == 0 then 1.0 else f * Pow(f, n - 1)
  }

  /** A particle that starts inside a surface it fits in stays inside it, and
      keeps its radius, friction and speeds, whatever the pointer does. */
  lemma {:induction false} FramesStayInside(b: Body, w: real, h: real, fs: seq<Frame>)
    requires AllClear(fs)
    requires Fits(b, w, h) && Inside(b, w, h)
    ensures var r := Frames(b, w, h, fs);
      Inside(r, w, h) && r.radius == b.radius && r.friction == b.friction &&
      Abs(r.vx) == Abs(b.vx) && Abs(r.vy) == Abs(b.vy)
    decreases |fs|
  {
    if fs != [] {
      FramesStayInside(Step(b, w, h, fs[0].pointer, fs[0].distance), w, h, fs[1..]);
    }
  }

  /** A push after `n` frames of pure decay, one multiplication by `f` per frame. */
  function Decayed(push: real, f: real, n: nat): real
    decreases n
  {
    if n == 0 then push else Decayed(push * f, f, n - 1)
  }

  /** Repeated decay is geometric: `push * f^n`. */
  lemma {:induction false} DecayedIsGeometric(push: real, f: real, n: nat)
    ensures Decayed(push, f, n) == push * Pow(f, n)
    decreases n
  {
    if n > 0 {
      DecayedIsGeometric(push * f, f, n - 1);
      var pn := Pow(f, n - 1);
      assert (push * f) * pn == push * (f * pn);
    }
  }

  lemma {:induction false} ReleasedTail(fs: seq<Frame>)
    requires Released(fs) && fs != []
    ensures Released(fs[1..]) && AllClear(fs)
  {
    forall k | 0 <= k < |fs[1..]| ensures !fs[1..][k].pointer.pressed {
      assert fs[1..][k] == fs[k + 1];
    }
  }

  /** The first frame of a released run only decays the push; `s` is the particle
      after it. */
  lemma ReleasedFirst(b: Body, w: real, h: real, fs: seq<Frame>) returns (s: Body)
    requires Released(fs) && AllClear(fs) && fs != []
    ensures s.pushX == b.pushX * b.friction && s.pushY == b.pushY * b.friction && s.friction == b.friction
    ensures Frames(b, w, h, fs) == Frames(s, w, h, fs[1..])
  {
    assert !Repels(fs[0].pointer, fs[0].distance);
    s := Step(b, w, h, fs[0].pointer, fs[0].distance);
  }

  /** One decay followed by `n - 1` more is `n` decays. */
  lemma DecayedNext(b: Body, s: Body, r: Body, n: nat)
    requires 0 < n
    requires s.pushX == b.pushX * b.friction && s.pushY == b.pushY * b.friction && s.friction == b.friction
    requires r.pushX == Decayed(s.pushX, s.friction, n - 1) && r.pushY == Decayed(s.pushY, s.friction, n - 1)
    ensures r.pushX == Decayed(b.pushX, b.friction, n) && r.pushY == Decayed(b.pushY, b.friction, n)
  {
    DecayedFirst(b.pushX, s.pushX, b.friction, n - 1);
    DecayedFirst(b.pushY, s.pushY, b.friction, n - 1);
  }

  lemma DecayedFirst(push: real, next: real, f: real, n: nat)
    requires next == push * f
    ensures Decayed(push, f, n + 1) == Decayed(next, f, n)
  {
  }

  /** With the pointer released the push only decays, frame after frame. */
  lemma {:induction false} ReleasedPushDecays(b: Body, w: real, h: real, fs: seq<Frame>)
    requires Released(fs) && AllClear(fs)
    ensures Frames(b, w, h, fs).pushX == Decayed(b.pushX, b.friction, |fs|)
    ensures Frames(b, w, h, fs).pushY == Decayed(b.pushY, b.friction, |fs|)
    decreases |fs|
  {
    if fs != [] {
      ReleasedTail(fs);
      var s := ReleasedFirst(b, w, h, fs);
      ReleasedPushDecays(s, w, h, fs[1..]);
      DecayedNext(b, s, Frames(s, w, h, fs[1..]), |fs|);
    }
  }
}
