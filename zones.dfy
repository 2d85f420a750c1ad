// `ZoneCircle`: samples a spawn offset on a ring segment. The random source is
// a stream of draws `rnd`, read from index k on; the rotation of a vector by
// an angle in degrees (`Vector2.rotate`) is a parameter of the model.

module Zones {
  import opened Geometry
  import opened Interp

  /** One result of `zone.emit()`: an offset from the emitter and a momentum. */
  datatype ZoneSample = ZoneSample(position: Vec2, momentum: Vec2)

  /** A sample and the index of the first random draw it left unused. */
  datatype Draw = Draw(sample: ZoneSample, next: nat)

  /** True when `rotate` never changes the length of a vector, as a rotation does. */
  ghost predicate PreservesLength(rotate: (Vec2, real) -> Vec2) {
    forall v: Vec2, deg: real {:trigger rotate(v, deg)} :: rotate(v, deg).Norm2() == v.Norm2()
  }

  lemma SquareBetween(lo: real, r: real, hi: real)
    requires 0.0 <= lo <= r <= hi
    ensures lo * lo <= r * r <= hi * hi
  {
    assert lo * lo <= lo * r <= r * r;
    assert r * r <= r * hi <= hi * hi;
  }

  datatype ZoneCircle = ZoneCircle(r0: real := 0.0, r1: real := 64.0, phi0: real := 0.0, phi1: real := 360.0) {

    /** The radius for a draw u: `(r1 - r0) * u + r0`. A draw in [0, 1) lands
        between r0 and r1, in whichever order they are given. */
    function Radius(u: real): (r: real)
      ensures 0.0 <= u < 1.0 ==> Min(r0, r1) <= r <= Max(r0, r1)
      ensures u == 0.0 ==> r == r0
      ensures r == Lerp(r0, r1, u)
    {
      assert Lerp(r0, r1, u) == (r1 - r0) * u + r0;
      (r1 - r0) * u + r0
    }

    /** The angle in degrees for a draw u: `(phi1 - phi0) * u + phi0`. */
    function Angle(u: real): (phi: real)
      ensures 0.0 <= u < 1.0 ==> Min(phi0, phi1) <= phi <= Max(phi0, phi1)
      ensures u == 0.0 ==> phi == phi0
      ensures phi == Lerp(phi0, phi1, u)
    {
      assert Lerp(phi0, phi1, u) == (phi1 - phi0) * u + phi0;
      (phi1 - phi0) * u + phi0
    }

    /** `emit()`: the radius takes draw k, the angle draw k + 1; the vector
        `Vector2(r, 0).rotate(phi)` is returned as both position and momentum. */
    function Emit(rotate: (Vec2, real) -> Vec2, rnd: nat -> real, k: nat): (d: Draw)
      ensures d.next == k + 2
      ensures d.sample.position == d.sample.momentum
      ensures d.sample.position == rotate(Vec2(Radius(rnd(k)), 0.0), Angle(rnd(k + 1)))
      ensures PreservesLength(rotate) && 0.0 <= r0 && 0.0 <= r1 && 0.0 <= rnd(k) < 1.0 ==>
                Min(r0, r1) * Min(r0, r1) <= d.sample.position.Norm2() <= Max(r0, r1) * Max(r0, r1)
    {
      var r := Radius(rnd(k));
      var v := rotate(Vec2(r, 0.0), Angle(rnd(k + 1)));
      RotatedLength(rotate, r, Angle(rnd(k + 1)));
      Draw(ZoneSample(v, v), k + 2)
    }

    /** The length of the rotated radius vector, when the radius lies in [r0, r1] (or [r1, r0]). */
    lemma RotatedLength(rotate: (Vec2, real) -> Vec2, r: real, phi: real)
      ensures PreservesLength(rotate) && 0.0 <= r0 && 0.0 <= r1 && Min(r0, r1) <= r <= Max(r0, r1) ==>
                Min(r0, r1) * Min(r0, r1) <= rotate(Vec2(r, 0.0), phi).Norm2() <= Max(r0, r1) * Max(r0, r1)
    {
      if PreservesLength(rotate) && 0.0 <= r0 && 0.0 <= r1 && Min(r0, r1) <= r <= Max(r0, r1) {
        assert rotate(Vec2(r, 0.0), phi).Norm2() == r * r;
        SquareBetween(Min(r0, r1), r, Max(r0, r1));
      }
    }

    /** n consecutive calls of `emit()` starting at draw k: each call consumes
        exactly two draws, so call i reads draws k + 2i and k + 2i + 1. */
    function EmitMany(rotate: (Vec2, real) -> Vec2, rnd: nat -> real, k: nat, n: nat): (r: (seq<ZoneSample>, nat))
      ensures |r.0| == n && r.1 == k + 2 * n
      ensures forall i :: 0 <= i < n ==> r.0[i] == Emit(rotate, rnd, k + 2 * i).sample
    {
      if n == 0 then ([], k)
      else
        var (samples, next) := EmitMany(rotate, rnd, k, n - 1);
        var d := Emit(rotate, rnd, next);
        (samples + [d.sample], d.next)
    }
  }

  /** The default zone, `ZoneCircle()`: radius in [0, 64], full turn. */
  const DefaultZone := ZoneCircle()

  lemma DefaultRadiusBounds(u: real)
    requires 0.0 <= u < 1.0
    ensures 0.0 <= DefaultZone.Radius(u) <= 64.0
    ensures 0.0 <= DefaultZone.Angle(u) <= 360.0
  {
  }
}
