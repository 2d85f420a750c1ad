// `Particle` and `particle_system`: a particle's size and alpha ramp over its
// normalised lifetime, and the memoised image factories that draw it.

module Particles {
  import opened Geometry
  import opened Interp
  import opened Timers

  /** `_lerp(lo, hi, ease(t))`: one attribute of the ramp at normalised time t. */
  function Ramp(lo: real, hi: real, ease: real -> real, t: real): (v: real)
    ensures ease(t) == 0.0 ==> v == lo
    ensures ease(t) == 1.0 ==> v == hi
    ensures lo == hi ==> v == lo
    ensures 0.0 <= ease(t) <= 1.0 ==> Min(lo, hi) <= v <= Max(lo, hi)
  {
    Lerp(lo, hi, ease(t))
  }

  /** With the identity easing and t in [0, 1], the ramp starts at lo, ends at
      hi and never leaves the range between them, whatever their order. */
  lemma LinearRamp(lo: real, hi: real, t: real)
    requires 0.0 <= t <= 1.0
    ensures Min(lo, hi) <= Ramp(lo, hi, x => x, t) <= Max(lo, hi)
    ensures Ramp(lo, hi, x => x, 0.0) == lo && Ramp(lo, hi, x => x, 1.0) == hi
  {
  }

  class Particle {
    var sizeMin: real
    var sizeMax: real
    var sizeEase: real -> real
    var alphaMin: real
    var alphaMax: real
    var alphaEase: real -> real
    var cycle: bool
    /** A factory called as `image_factory(size=..., alpha=...)`. */
    var imageFactory: (real, real) -> Surface
    var size: real
    var alpha: real

    /** The dataclass constructor with its defaults, then `__post_init__`. The
        default image factory draws with pygame and is a parameter here. */
    constructor (imageFactory: (real, real) -> Surface,
                 nameonly sizeMin: real := 2.0, nameonly sizeMax: real := 32.0,
                 nameonly sizeEase: real -> real := x => x,
                 nameonly alphaMin: real := 255.0, nameonly alphaMax: real := 255.0,
                 nameonly alphaEase: real -> real := x => x,
                 nameonly cycle: bool := false)
      ensures this.sizeMin == sizeMin && this.sizeMax == sizeMax && this.sizeEase == sizeEase
      ensures this.alphaMin == alphaMin && this.alphaMax == alphaMax && this.alphaEase == alphaEase
      ensures this.cycle == cycle && this.imageFactory == imageFactory
      ensures size == sizeMin && alpha == alphaMin
    {
      this.sizeMin := sizeMin;
      this.sizeMax := sizeMax;
      this.sizeEase := sizeEase;
      this.alphaMin := alphaMin;
      this.alphaMax := alphaMax;
      this.alphaEase := alphaEase;
      this.cycle := cycle;
      this.imageFactory := imageFactory;
      alpha := alphaMin;
      size := sizeMin;
    }

    /** The `image` property: the factory applied to the current size and alpha. */
    function Image(): Surface
      reads this
    {
      imageFactory(size, alpha)
    }
  }

  /** `particle_system`: re-arm an expired lifetime of a cycling particle, then
      set size and alpha from the lifetime's normalised time. Only `size` and
      `alpha` of the particle change. */
  method ParticleSystem(particle: Particle, lifetime: Cooldown)
    modifies particle`size, particle`alpha, lifetime
    ensures old(lifetime.cold) && particle.cycle ==>
              lifetime.resets == old(lifetime.resets) + 1
              && (lifetime.duration > 0.0 ==> !lifetime.cold && lifetime.normalized == 0.0)
    ensures !(old(lifetime.cold) && particle.cycle) ==> unchanged(lifetime)
    ensures particle.size == Ramp(particle.sizeMin, particle.sizeMax, particle.sizeEase, lifetime.normalized)
    ensures particle.alpha == Ramp(particle.alphaMin, particle.alphaMax, particle.alphaEase, lifetime.normalized)
    ensures old(lifetime.cold) && particle.cycle && lifetime.duration > 0.0 && particle.sizeEase(0.0) == 0.0 ==>
              particle.size == particle.sizeMin
  {
    if lifetime.cold && particle.cycle {
      lifetime.Reset();
    }
    var t := lifetime.normalized;
    particle.size := Lerp(particle.sizeMin, particle.sizeMax, particle.sizeEase(t));
    particle.alpha := Lerp(particle.alphaMin, particle.alphaMax, particle.alphaEase(t));
  }

  /** `functools.lru_cache` around a drawing routine `render`, without its
      eviction: every entry holds what `render` gives for its key, and `render`
      has run exactly once per key ever looked up. */
  class ImageCache {
    const render: (real, real) -> Surface
    var entries: map<(real, real), Surface>
    /** How many times `render` has run. */
    var renders: nat

    ghost predicate Valid()
      reads this
    {
      && renders == |entries|
      && forall key :: key in entries ==> entries[key] == render(key.0, key.1)
    }

    constructor (render: (real, real) -> Surface)
      ensures Valid() && this.render == render
      ensures entries == map[] && renders == 0
    {
      this.render := render;
      entries := map[];
      renders := 0;
    }

    /** A call of the cached factory: the same surface `render` gives, drawn
        only on the first call with these arguments. */
    method Get(size: real, alpha: real) returns (s: Surface)
      requires Valid()
      modifies this
      ensures Valid()
      ensures s == render(size, alpha)
      ensures (size, alpha) in old(entries) ==> entries == old(entries) && renders == old(renders)
      ensures (size, alpha) !in old(entries) ==>
                entries == old(entries)[(size, alpha) := s] && renders == old(renders) + 1
    {
      var key := (size, alpha);
      if key in entries {
        s := entries[key];
      } else {
        s := render(size, alpha);
        assert entries[key := s].Keys == entries.Keys + {key};
        entries := entries[key := s];
        renders := renders + 1;
      }
    }
  }

  /** Reading `particle.image` twice, with size and alpha unchanged, when the
      particle's factory is the cached `render`: both reads give the identical
      surface, the particle's image; `render` runs at most once, and not at all
      when that size and alpha were drawn before. */
  method ImageTwice(particle: Particle, cache: ImageCache) returns (first: Surface, second: Surface)
    requires cache.Valid() && particle.imageFactory == cache.render
    modifies cache
    ensures cache.Valid()
    ensures first == second == particle.Image()
    ensures cache.renders <= old(cache.renders) + 1
    ensures (particle.size, particle.alpha) in old(cache.entries) ==> cache.renders == old(cache.renders)
  {
    first := cache.Get(particle.size, particle.alpha);
    second := cache.Get(particle.size, particle.alpha);
  }
}
