# Particle field

A model of the core of `script.js`: a canvas toy in which 200 particles drift
across the window, bounce off its edges, are pushed away by a pressed pointer,
and are joined by lines that fade with distance.

Three modules:

- `Motion` (`motion.dfy`) models one particle's `update()` as values. A `Body`
  holds position, velocity, pointer push, radius and friction. `Advance` is the
  pointer phase plus `push *= friction` and `position += push + velocity`.
  `Bounce` is the reflection off the four edges. `Step` is both together. On
  top of these, `Frames` runs many updates in a row, and lemmas state what
  holds over any number of frames.
- `Connections` (`connections.dfy`) models the nested loop of
  `connectParticles()`. `Drawn(dist, i, j)` is the sequence of lines drawn
  before the loop reaches the pair (i, j). `dist[i][j]` is the distance between
  particles i and j.
- `Effect` (`effect.dfy`) holds the two classes `Particle` and `Effect` with the
  same fields as the program. Their methods change those fields in place, and
  each is proved against the functions of the other two modules.

JavaScript numbers are idealised as `real`. Each `Math.random()` value is a
parameter in [0, 1). Each `Math.hypot(dx, dy)` is a parameter `d` constrained
by `IsHypot(d, dx, dy)`: `d >= 0` and `d * d == dx * dx + dy * dy`. The
pointer's angle is not computed. `cos(atan2(dy, dx))` is replaced by `dx / d`
and `sin(atan2(dy, dx))` by `dy / d`, which are equal for `d > 0`.

## Model

| member | source | states |
|---|---|---|
| Motion.Advance | script.js:27-39 | Velocity, radius and friction are kept. The particle moves by its decayed push plus its velocity. With the pointer released or out of range, the push is only multiplied by the friction. Within range of a pressed pointer, the repulsion is added first, then the friction applies. |
| Motion.Repulsion | script.js:30-35 | The push a pressed pointer adds lies along the particle's offset from the pointer. When `d` is the offset's length, its dot product with the offset is `PointerRadius`. So it points away from the pointer, and its component along the offset is the force `PointerRadius / d`. |
| Motion.RepulsionPointsAway | script.js:28-35 | The added push lies along the offset from the pointer and points away from it. Its dot product with the offset is `PointerRadius`, and its squared magnitude times `d * d` is `PointerRadius * PointerRadius`. So its magnitude, which here is also its component along the offset, is the force `PointerRadius / d`. |
| Motion.UnitDirection | script.js:33-35 | `(dx / d, dy / d)`, standing for the cosine and sine of `atan2(dy, dx)`, is parallel to the offset. When `d` is the offset's length it is a unit vector. |
| Motion.BounceAxis | script.js:41-47 | A coordinate below `radius` becomes `radius`. Otherwise, one above `dim - radius` becomes `dim - radius`. Either way the velocity is negated. A coordinate already inside is kept together with its velocity. On a surface at least `2 * radius` wide the result lies in `[radius, dim - radius]`. The speed is kept. |
| Motion.BounceAxisNearest | script.js:41-47 | On a surface at least `2 * radius` wide, the reflected coordinate is the point of `[radius, dim - radius]` nearest to where the particle was. So the reflection clamps to the near edge, never the far one. |
| Motion.Bounce | script.js:41-55 | Both axes are reflected independently. A particle that fits the surface ends inside it. Push, radius, friction and speeds are kept. |
| Motion.Step | script.js:26-56 | One full update. A particle that fits the surface ends inside it. Speeds, radius and friction are kept. Without repulsion, the push only decays. |
| Motion.StepFlipsExactlyWhenClamped | script.js:41-55 | On each axis, the velocity is negated and the coordinate moved exactly when the advanced coordinate left `[radius, dim - radius]`. |
| Motion.NoRepulsionOnlyDecays | script.js:27-39 | Without repulsion, the coordinate before clamping is `x + pushX * friction + vx`, and the new push is `pushX * friction`. |
| Motion.LeftEdgeBounce | script.js:41-43 | With the pointer released, a particle resting on the left edge and moving left, with no push, stays on the edge and moves right at the same speed. |
| Motion.RightEdgeBounce | script.js:44-46 | With the pointer released, a particle resting on the right edge and moving right, with no push, stays on the edge and moves left at the same speed. The particle must fit across the surface. |
| Motion.TopEdgeBounce | script.js:49-51 | The same at the top edge: the particle stays at `y == radius` and its vertical velocity turns positive. |
| Motion.BottomEdgeBounce | script.js:52-54 | The same at the bottom edge: the particle stays at `y == h - radius` and its vertical velocity turns negative. The particle must fit down the surface. |
| Motion.NarrowSurfaceEscapes | script.js:41-47 | On a surface narrower than the particle, an advanced coordinate at or above `radius` takes the `else if` branch. It is clamped to `w - radius`, which is below `radius`. So the edge bound needs `w >= 2 * radius`. |
| Motion.FramesStayInside | script.js:26-56 | Over any sequence of frames and pointer states, a particle that starts inside a surface it fits stays inside. It keeps its radius, friction and speeds. |
| Motion.DecayedIsGeometric | script.js:38-39 | `n` rounds of `push *= friction` leave `push * friction^n`. |
| Motion.ReleasedPushDecays | script.js:27-39 | While the pointer stays released, the push after `n` frames is the starting push decayed `n` times. |
| Connections.Opacity | script.js:122-126 | The opacity `1 - distance / 100` of a drawn line lies in (0, 1]. It is 1 exactly at distance 0. |
| Connections.OpacityFades | script.js:126 | A nearer pair is drawn more opaque. |
| Connections.Connect | script.js:120-133 | One pair draws at most one line. It draws one exactly when the distance is below 100. That line joins the two particles and has an opacity in (0, 1]. |
| Connections.Drawn | script.js:118-135 | The reference definition of the nested loop: the lines drawn before the loop reaches the pair (i, j), one row at a time, with columns from `i` upward. It has no contract of its own. Its properties are the `Drawn...` lemmas below, and `Effect.Effect.ConnectParticles` is proved equal to it. |
| Connections.DrawnSound | script.js:117-136 | Every line drawn before the loop reaches (i, j) joins a pair `a <= b` that the loop has already visited. The pair is closer than 100, and the line carries that pair's opacity. |
| Connections.DrawnComplete | script.js:117-136 | Every pair `a <= b` visited before (i, j) and closer than 100 has its line among those drawn. |
| Connections.DrawnOrdered | script.js:118-119 | Lines are drawn in strictly increasing lexicographic pair order, so no pair is drawn twice. |
| Connections.DrawnCount | script.js:118-119 | At most one line per visited pair: twice the number of lines is at most `i (2n - i + 1) + 2 (j - i)`. |
| Connections.DrawnCountAllClose | script.js:118-124 | When every pair is closer than 100, exactly one line is drawn per visited pair: twice the number of lines is `i (2n - i + 1) + 2 (j - i)`. So the whole loop visits exactly `n (n + 1) / 2` pairs. |
| Connections.AllLines | script.js:117-136 | Over the whole loop, every line joins a pair `i <= j < n` closer than 100, with opacity in (0, 1]. Every such pair has its line, no pair has two, and there are at most `n (n + 1) / 2` lines. |
| Connections.LinesToSelf | script.js:118-119 | Since `j` starts at `i` and a particle is at distance 0 from itself, every particle gets a fully opaque line to itself. |
| Connections.SelfDistanceZero | script.js:120-123 | The distances form an n by n table of non-negative numbers, and the distance from a particle to itself is 0. |
| Effect.RadiusFromDraw | script.js:17 | The radius is the integer `r` from 1 to 10 with `r - 1 <= 10 u < r`, so each value takes a tenth of [0, 1). |
| Effect.VelocityFromDraw | script.js:20-21 | Each velocity component lies in [-0.5, 0.5). |
| Effect.Place | script.js:18-19 | On a surface at least `2 * radius` wide, the coordinate lies in `[radius, dim - radius]`, strictly below the upper bound when the surface is wider. A draw of 0 gives `radius`. |
| Effect.Spawn | script.js:15-25 | A new particle has an integral radius from 1 to 10 and velocities in [-0.5, 0.5). Its push is zero and its friction 0.85. On a surface of at least 20 by 20 it fits. When it fits, it starts inside. |
| Effect.SpawnedStaysInside | script.js:15-56 | A particle created on a surface of at least 20 by 20 stays inside it over any number of updates. |
| Effect.Particle.constructor | script.js:15-25 | The new particle's fields are `Spawn` of its draws on the effect's current size. |
| Effect.Particle.Update | script.js:26-56 | The particle's fields change to `Step` of their old values, under the effect's pointer and size. |
| Effect.Particle.BounceOffEdges | script.js:41-55 | The fields change to `Bounce` of their old values. |
| Effect.Particle.Reset | script.js:64-67 | Only the position changes. It becomes `Place` of the radius in the effect's current width and height. |
| Effect.Effect.constructor | script.js:71-85 | The effect has the given size and 200 fresh particles, each `Spawn` of its draws. The pointer starts at (0, 0), released. On a surface of at least 20 by 20 every particle fits and lies inside. |
| Effect.Effect.CreateParticles | script.js:106-110 | Exactly `numOfParticles` fresh particles are appended, in order, each `Spawn` of its draws. The earlier particles, the size and the pointer are kept. |
| Effect.Effect.HandleParticles | script.js:111-116 | Every particle, in list order, changes to `Step` of its old state. If every particle fitted the surface before, every particle lies inside it afterwards. |
| Effect.Effect.ConnectParticles | script.js:117-136 | The lines drawn are `Drawn(dist, n, n)`, whose properties are the `Connections` lemmas above. |
| Effect.Effect.Resize | script.js:137-151 | The size becomes the new one. Every particle is placed anew by `Place` in it. Radii, velocities, pushes and frictions are kept. Particles that fit lie inside. |
| Effect.Effect.PointerMove | script.js:86-91 | The pointer follows the event only while pressed. |
| Effect.Effect.PointerDown | script.js:92-96 | The pointer becomes pressed at the event's position. |
| Effect.Effect.PointerUp | script.js:98-100 | The pointer is released and keeps its position. |
| Effect.Effect.Animate | script.js:156-162 | One frame draws `Drawn(dist, n, n)`, then updates every particle with `Step`. Particles that fitted lie inside afterwards. |

## Left out

- Drawing is not modelled: `draw()`, the canvas calls in `connectParticles()`, `clearRect`, the gradient and the stroke and fill styles. Only which lines are drawn, and with which opacity, is modelled.
- The DOM is not modelled: the canvas element and its size (also the canvas width and height that `resize()` sets), `window` sizes, the event listeners and their wiring, and the `requestAnimationFrame` loop. The handlers are the methods `PointerMove`, `PointerDown`, `PointerUp` and `Resize`, and one frame is `Animate`.
- `Math.random()` and `Math.hypot()` become parameters, as described above. Floating-point rounding, and the bit-level meaning of `Math.floor`, are idealised as exact reals.
- Motion.Advance, Motion.Step, Motion.Frames, Motion.FramesStayInside, Effect.SpawnedStaysInside, Effect.Particle.Update, Effect.Effect.HandleParticles and Effect.Effect.Animate require that the pointer is never pressed exactly on a particle (`Clear`, `AllClear`). At distance 0 the program computes `force = 150 / 0 = Infinity`, and `atan2(+0, +0) = 0`. Then `pushX` becomes `1 * Infinity = Infinity`, but `pushY` becomes `0 * Infinity = NaN`. From then on `x` is clamped to `width - radius` every frame and `vx` flips every frame. `y` stays NaN, and neither test on it ever holds, so it is never clamped. The particle leaves the surface for good. Reals cannot express this path, so the model excludes it.
- The pointer's `radius` field is the constant `PointerRadius` (150), because the program never changes it.
- `reset()` reads the global `effect` rather than `this.effect`. The model uses the particle's own `effect`, which is the same object since the program creates exactly one effect.
- Effect.Particle.BounceOffEdges is the end of `update()`, written as its own method. The statements and their order are the same.
- Effect.Effect.ConnectParticles takes the distance table as a parameter. The requirement `DistanceTable` ties each entry to the particles' current positions.
- Effect.Particle.Update takes the distance `d` as a parameter even while the pointer is released, when the program does not compute it. `d` is then unused, and the requirement `IsHypot` can always be met.
- Effect.Effect.HandleParticles takes each particle's distance to the pointer as a parameter. It is tied to the particle's position before its update, which is the position the program reads.
