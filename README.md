# swirly-swirls particle core, modelled in Dafny

swirly-swirls is a particle-effects layer on top of an entity-component system
(tinyecs) and pygame. Each frame, `emitter_system` decides whether an
emitter's tick has come round and, if so, how many particles to launch; it
samples a zone for each particle's offset and momentum and calls a particle
factory, which creates the particle entity. `particle_system` then ramps each
particle's size and alpha over its lifetime, and the particle's `image` is
drawn by a memoised image factory. Two helpers complete the core:
`ZoneCircle.emit`, which samples a point on a ring segment, and
`container_system`, which bounces a sprite off the edges of a container
rectangle, together with `EVSprite`, whose image is fetched from a factory.

The model has one module per source file, plus two for shared values:

- `Interp` (interp.dfy): `_lerp` and Python's `int()` on a float.
- `Geometry` (geometry.dfy): `Option`, pygame's `Vector2` and `Rect` as values, surfaces.
- `Timers` (cooldown.dfy): the `Cooldown` timer as the core sees it. The clock is
  outside the model: `cold` and `normalized` hold what the timer reports when a
  system runs, and `resets` counts calls to `reset()`.
- `Zones` (zones.dfy): `ZoneCircle`. The random source is a stream of draws
  `rnd: nat -> real`, and `Vector2.rotate` is a parameter `rotate`.
- `Particles` (particles.dfy): the `Particle` class, `particle_system`, and the
  `lru_cache` around an image factory. `Particle` and `particle_system` appear
  twice in the source, in src/swirlyswirls/particles.py:45-132 and in
  src/swirlyswirls/emitter.py:298-385. The two copies differ only in the name
  of the default image factory, so the model has one copy.
- `Emitters` (emitter.dfy): `Emitter`, `emitter_system`, and what a run of
  ticks does to the emit budget.
- `Compsys` (compsys.dfy): `container_system` and `EVSprite`.

The ECS is explicit. What `eid_has`/`comp_of_eid` answer about the emitter
entity is an `EntityView` argument. The results of the zone's `emit()` during
one call are an argument `zone: nat -> ZoneSample`, where `zone(i)` is the i-th
call. `remove_entity`, the factory calls and `add_component` are returned to
the caller as a flag and as sequences of call records. The objects the source
updates in place are classes (`Emitter`, `Cooldown`, `Particle`, `EVSprite`,
pygame's `Vector2`). The systems are module-level methods that take those
objects as parameters and update their fields, as the source's system functions
do. `Emitters.EmitterSystem`, `Particles.ParticleSystem` and
`Compsys.ContainerSystem` are each proved equal to a pure function (`Fire`,
`Ramp`, `Bounce`), and the properties are proved about those functions.
`Compsys.EVSprite.Image` states the new state of the sprite directly.

The model follows the code where the docstrings promise more:

- `ept_ease` is stored but never applied: the emit count is `int(_lerp(ept0, ept1, t))`.
- An expired `duration` does not stop emission. Its `normalized` value is simply used as t.
- A budget of exactly 0 requests `remove_entity` but does not return. The tick
  is still reset, and the batch is launched unclamped (see Findings).
- A negative emit count (negative `ept0`/`ept1`, or t outside [0, 1]) launches
  nothing. With a positive budget, though, `remaining -= emits` then grows the
  budget, so a run can launch more than `total_emits` with or without the return
  after the removal request (`Emitters.NegativeCountOverrunsBudget`).
  `Emitters.Fire` states the budget identity only for non-negative counts.
- The top-edge test of `container_system` reads `momentum.x`. It reads it after
  the horizontal branch may already have negated it (see Findings).

## Model

| member | source | states |
|---|---|---|
| `Interp.Lerp` | src/swirlyswirls/emitter.py:142 | `_lerp(a, b, t)` is a at t = 0 and b at t = 1; it is constant when a == b; for t in [0, 1] it lies between a and b in either order |
| `Interp.LerpBetween` | src/swirlyswirls/emitter.py:142 | for t in [0, 1], `(1 - t) * a + b * t` lies between a and b, whichever is larger |
| `Interp.Trunc` | src/swirlyswirls/emitter.py:275 | `int()` truncates toward zero: the result is at most the float for non-negative inputs and at least it for negative ones, and less than 1 away |
| `Interp.TruncBetween` | src/swirlyswirls/emitter.py:275 | truncating a value between two integers stays between them |
| `Geometry.RectWithCenter` | src/swirlyswirls/compsys.py:50 | `get_rect(center=c)` has the surface's size and its centre exactly at c |
| `Geometry.RecenterSameSize` | src/swirlyswirls/compsys.py:50 | placing a rect's own size around its own centre gives the same rect back |
| `Geometry.RectWithBottomRight` | src/swirlyswirls/compsys.py:38 | `get_rect(bottomright=p)` has the surface's size and its bottom-right corner at p |
| `Timers.Cooldown.constructor` | src/swirlyswirls/emitter.py:214 | `Cooldown(d, cold=c)`: the duration and cold flag are as given, nothing is elapsed unless it starts cold, and no reset has happened |
| `Timers.Cooldown.Hot` | src/swirlyswirls/emitter.py:260 | `tick.hot`: the countdown has not run out, the negation of `cold` |
| `Timers.Cooldown.Reset` | src/swirlyswirls/particles.py:127 | `reset()` is counted once; with a positive duration it re-arms the timer: hot, with nothing elapsed |
| `Zones.ZoneCircle.Radius` | src/swirlyswirls/zones.py:15 | the radius for a draw u in [0, 1) lies between r0 and r1 in either order; a draw of 0 gives r0; it is `_lerp(r0, r1, u)` |
| `Zones.ZoneCircle.Angle` | src/swirlyswirls/zones.py:16 | the angle for a draw u in [0, 1) lies between phi0 and phi1 in either order; a draw of 0 gives phi0 |
| `Zones.ZoneCircle.RotatedLength` | src/swirlyswirls/zones.py:17 | if rotation preserves length, the rotated radius vector has squared length between min(r0, r1)² and max(r0, r1)² when 0 <= r0, r1 |
| `Zones.ZoneCircle.Emit` | src/swirlyswirls/zones.py:14-19 | `emit()` consumes exactly two draws, the radius first and the angle second; position and momentum are the same vector; its length is bounded by the radii under a length-preserving rotation |
| `Zones.ZoneCircle.EmitMany` | src/swirlyswirls/zones.py:15-16 | n successive `emit()` calls from draw k consume 2n draws, and call i reads draws k + 2i and k + 2i + 1 |
| `Zones.DefaultRadiusBounds` | src/swirlyswirls/zones.py:8-11 | with the defaults, the radius lies in [0, 64] and the angle in [0, 360] |
| `Particles.Ramp` | src/swirlyswirls/particles.py:131-132 | an eased lerp is lo when ease(t) = 0 and hi when ease(t) = 1; it stays lo when lo == hi (so the default alpha 255→255 is 255 for every t); it lies between lo and hi when ease(t) is in [0, 1] |
| `Particles.LinearRamp` | src/swirlyswirls/particles.py:87 | with the default identity easing and t in [0, 1], the ramp starts at lo, ends at hi and stays between them |
| `Particles.Particle.constructor` | src/swirlyswirls/particles.py:85-96 | the dataclass defaults (2, 32, 255, 255, identity easings, no cycling); after `__post_init__`, size == size_min and alpha == alpha_min |
| `Particles.ParticleSystem` | src/swirlyswirls/particles.py:126-132 | the lifetime is reset exactly when it is cold and the particle cycles, and is untouched otherwise; size and alpha become the eased lerps at the lifetime's t; a re-armed ramp with a positive lifetime restarts at size_min when the size easing maps 0 to 0; only size and alpha of the particle change |
| `Particles.ImageCache.constructor` | src/swirlyswirls/particles.py:35 | a new cache is empty and has drawn nothing |
| `Particles.ImageCache.Get` | src/swirlyswirls/particles.py:35-42 | a cached call returns what the drawing routine gives for its arguments; it draws only on the first call with those arguments, so draws equal distinct keys |
| `Particles.ImageTwice` | src/swirlyswirls/particles.py:98-100 | with the cached factory behind the `image` property, two reads at the same size and alpha return the identical surface, the particle's image; they draw at most once, and not at all for a size and alpha drawn before |
| `Emitters.EmitTime` | src/swirlyswirls/emitter.py:268-273 | t is the duration timer's `normalized` if there is one, else the lifetime component's, else 0 |
| `Emitters.EmitCount` | src/swirlyswirls/emitter.py:275 | the emit count is ept0 at t = 0 and ept1 at t = 1, constant when they agree, and between them for t in [0, 1] |
| `Emitters.ClampToBudget` | src/swirlyswirls/emitter.py:277-279 | with a positive budget, the count is clamped to it and subtracted from it, so the budget stays >= 0; a budget of 0 or below (unlimited) changes neither |
| `Emitters.Spawned` | src/swirlyswirls/emitter.py:286 | `range(emits)` runs emits times, and never for a negative count |
| `Emitters.EmitterMomentum` | src/swirlyswirls/emitter.py:281-284 | `e_momentum` is the entity's momentum when bit 1 is set and the entity has one, else zero |
| `Emitters.SpawnMomentum` | src/swirlyswirls/emitter.py:289-293 | the momentum built with `+=` for one launch: flags ≡ 0, 1, 2, 3 (mod 4) give zero, the emitter momentum, the zone momentum, and their sum |
| `Emitters.Batch` | src/swirlyswirls/emitter.py:286 | a batch of n launches is exactly n factory calls |
| `Emitters.BatchCalls` | src/swirlyswirls/emitter.py:286-295 | call i of a batch gets the shared t, the emitter position plus zone sample i's offset, and the momentum inherited from the emitter and sample i |
| `Emitters.LaunchBatch` | src/swirlyswirls/emitter.py:286-295 | the `for` loop makes exactly the calls of the batch, in order, and none for a negative count |
| `Emitters.Fire` | src/swirlyswirls/emitter.py:260-295 | a hot tick does nothing; otherwise the tick is reset once and removal is requested iff the budget is 0; a positive budget is never overdrawn and pays for every launch; exhausted and unlimited budgets are left as they are and do not clamp; for ept >= 0 and t in [0, 1] a batch is at most max(ept0, ept1); each call's t, position and momentum |
| `Emitters.FireIsFiredTick` | src/swirlyswirls/emitter.py:263-286 | a tick that fires launches, spends and requests removal as the per-tick budget rule says |
| `Emitters.RunPaysUntilRemoval` | src/swirlyswirls/emitter.py:263-279 | over a run of ticks with a finite budget and non-negative emit counts, everything launched before the removal request is paid for from the budget, and the budget never goes negative |
| `Emitters.RunUnlimited` | src/swirlyswirls/emitter.py:215 | an unlimited emitter (remaining -1) keeps -1 forever and never asks to be removed |
| `Emitters.RunOverrunsBudget` | src/swirlyswirls/emitter.py:263-264 | a budget of 10 at 5 per tick launches 15 particles, because the exhausting tick still launches its batch |
| `Emitters.NegativeCountOverrunsBudget` | src/swirlyswirls/emitter.py:263-279 | `int(_lerp(-10, 10, 0.25))` is -5; with `total_emits=10` and counts -5 then 15, both the code as written and the corrected run launch 15 particles |
| `Emitters.RunFixedWithinBudget` | src/swirlyswirls/emitter.py:263-279 | with a return after the removal request and non-negative emit counts, a run never launches more than `total_emits` |
| `Emitters.Emitter.DurationTime` | src/swirlyswirls/emitter.py:269-273 | a duration time is available exactly when the emitter has a duration timer |
| `Emitters.Emitter.constructor` | src/swirlyswirls/emitter.py:203-216 | dataclass defaults; the tick starts cold, so the first call fires; remaining is total_emits, or -1 for None; there is a duration timer only for a truthy duration |
| `Emitters.EmitterSystem` | src/swirlyswirls/emitter.py:219-295 | the new budget, the tick reset, the removal request and the factory calls are those of `Fire` on the old state; a hot tick leaves the timer untouched; a tick that fires with a positive duration is left hot with nothing elapsed |
| `Emitters.SameInstantTwice` | src/swirlyswirls/emitter.py:260-266 | with a positive tick, a second call at the same instant finds the tick hot: it launches nothing, requests no removal, and the tick is reset at most once over both calls (missed ticks are not caught up) |
| `Compsys.BounceAxis` | src/swirlyswirls/compsys.py:119-126 | the if/elif of one axis: the low-edge branch wins; the high-edge branch needs a positive velocity and leaves it negative; otherwise nothing changes |
| `Compsys.SpinWrites` | src/swirlyswirls/compsys.py:121 | one `angular-momentum` write of the negated angular momentum per axis that bounced |
| `Compsys.Bounce` | src/swirlyswirls/compsys.py:119-135 | left wall: x momentum reversed to positive, x position moved by -2·left; right wall only if the left branch did not fire: reversed to negative, moved by 2·(width − right); top tested on the updated x momentum; bottom: y reversed to negative, moved by 2·(height − bottom); exactly one `angular-momentum` write of the negated angular momentum per axis whose branch fired |
| `Compsys.BounceNoHit` | src/swirlyswirls/compsys.py:119-135 | when no edge test holds, position, momentum and the store are unchanged |
| `Compsys.BounceMirrorsBackInside` | src/swirlyswirls/compsys.py:119-126 | for a container at the origin, the position correction mirrors a sprite that stuck out left or right back inside on that side |
| `Compsys.BounceHeadsInside` | src/swirlyswirls/compsys.py:119-135 | a sprite out over exactly one edge of an axis stops moving further out on the left, right and bottom edges |
| `Compsys.TopBounceTestsXMomentum` | src/swirlyswirls/compsys.py:128 | as written, a sprite above the container that moves down and left is turned back up, and one that moves up and right is not turned |
| `Compsys.BounceFixedHeadsInside` | src/swirlyswirls/compsys.py:128 | with the top test on y, no sprite out over one edge of an axis keeps moving further out, on any edge |
| `Compsys.ContainerSystem` | src/swirlyswirls/compsys.py:92-135 | the in-place update of the position and momentum components and the component writes are those of `Bounce` |
| `Compsys.EVSprite.constructor` | src/swirlyswirls/compsys.py:33-38 | a 1x1 placeholder image, with its rect's bottom-right corner at (-1, -1); the rect has the image's size |
| `Compsys.EVSprite.Image` | src/swirlyswirls/compsys.py:43-52 | the getter returns the factory's current image; the identical image leaves the rect alone; a new image is cached and the rect takes its size; the centre never moves; in both cases the rect is the image's size around the old centre, and it keeps the image's size |
| `Compsys.EVSprite.SetImage` | src/swirlyswirls/compsys.py:54-56 | assigning an image always raises a RuntimeError |

## Findings

| source | as written | input that shows it | evidently intended | confidence | as-written member | corrected member |
|---|---|---|---|---|---|---|
| src/swirlyswirls/compsys.py:128 | the top-edge test is `momentum.x < 0`, read after the horizontal branch | container (0, 0, 100, 100), sprite rect (10, -3, 4, 4), momentum (-1, 2): the y momentum becomes -2 and the sprite heads back out; momentum (1, -2): no bounce, and it keeps leaving | `momentum.y < 0`, like the other three edges | high; not executed | `Compsys.TopBounceTestsXMomentum` | `Compsys.BounceFixedHeadsInside` |
| src/swirlyswirls/emitter.py:263-264 | an exhausted budget requests `remove_entity` but the function goes on, and with the clamp skipped it launches a full batch | `total_emits=10`, `ept0 = ept1 = 5`, three ticks that fire: 15 particles | return after requesting removal, so that with non-negative emit counts at most `total_emits` particles are launched | medium; not executed | `Emitters.RunOverrunsBudget` | `Emitters.RunFixedWithinBudget` |

## Left out

- The pygame drawing inside `bubble_image_factory`, `squabble_image_factory` and
  `_default_image_factory` is not modelled. A particle's image factory is a
  parameter, and the cache memoises an abstract drawing routine.
- The eviction of `lru_cache(maxsize=1024)` is not modelled: the cache never
  forgets, and only "same arguments, same result, drawn once" is stated.
- `Cooldown` internals and the wall clock are not modelled. `dt` is unused by
  both systems.
- Timers.Cooldown.Reset: it promises the re-armed state (hot, nothing elapsed)
  only for a positive duration. What a zero or negative duration reports right
  after a reset depends on the timer's clock, which is not modelled. Callers
  carry the same condition: `ParticleSystem`'s restart at size_min,
  `EmitterSystem`'s hot tick after firing, and `SameInstantTwice`.
- `Vector2.rotate` numerics are not modelled: rotation is a parameter.
- Zones.ZoneCircle.Emit: the length bound is proved only for rotations that
  preserve length. That is a hypothesis of the lemma, not a fact proved about pygame.
- Floating point is not modelled: all arithmetic is on exact reals.
- Emitters.EmitCount: the contract uses exact reals. With IEEE doubles,
  `_lerp(a, a, t)` can come out just below a, and `int()` then gives a − 1.
- The ECS store is not modelled. `eid_has`/`comp_of_eid` answers are inputs;
  `remove_entity`, `add_component` and the factory calls are outputs.
- `Run`/`RunFixed` take a removal request to end the emitter's life, so no
  later tick fires. When removal takes effect is up to the ECS.
- The emitter's `zone` and `particle_factory` fields are not fields of the
  `Emitter` class. `EmitterSystem` takes the zone's results as an argument and
  returns the factory calls.
- A `duration` given as a ready-made `Cooldown` object is not modelled; only a
  numeric duration is.
- Compsys.ContainerSystem requires the position and momentum components to be
  distinct objects. If they were the same object, the in-place updates would
  interfere.
- `EVSprite.shutdown_`, `ESprite` and the sprite groups are not modelled.
  `EVSprite`'s factory object is a `Particle`, the core's object with an `image`
  property. The `is` identity test is modelled as equality of surface values.
  That loses nothing. When a new surface is equal to the cached one but not
  the same object, compsys.py:50 places a rect of the same size around the same
  centre, which gives back the same rect. `Compsys.EVSprite.Image` states that the
  rect is always the image's size around the old centre, in both cases.
- Importing emitter.py is not modelled. It imports `default_image_factory`
  from particles.py, which defines only `_default_image_factory`.
- The demos, `demo.py`, `utils.py`, `spritegroup.py` and `__init__.py` are not
  part of this model. `__init__.py` re-exports names that `compsys.py` does not define.
