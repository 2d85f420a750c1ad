// `container_system`, which bounces a sprite off the edges of a container
// rectangle, and `EVSprite`, whose image is fetched from a factory object.

module Compsys {
  import opened Geometry
  import opened Particles

  /** A pygame `Vector2` held as a component and updated in place. */
  class Vector2 {
    var x: real
    var y: real

    constructor (x: real, y: real)
      ensures this.x == x && this.y == y
    {
      this.x := x;
      this.y := y;
    }

    function Value(): Vec2
      reads this
    {
      Vec2(x, y)
    }
  }

  /** One recorded `ecs.add_component(eid, component, value)` call. */
  datatype ComponentWrite = ComponentWrite(eid: int, component: string, value: real)

  /** The state after a bounce: position, momentum and the component writes. */
  datatype Bounced = Bounced(position: Vec2, momentum: Vec2, writes: seq<ComponentWrite>)

  /** One axis of a bounce. */
  datatype AxisBounce = AxisBounce(hit: bool, velocity: real, position: real)

  /** The `if`/`elif` of one axis: when `lowHit` holds, reflect and shift by
      `lowShift`; otherwise, when the high edge is out and the velocity is
      positive, reflect and shift by `highShift`; otherwise leave both alone. */
  function BounceAxis(lowHit: bool, highOut: bool, velocity: real, position: real, lowShift: int, highShift: int)
    : (a: AxisBounce)
    ensures lowHit ==> a == AxisBounce(true, -velocity, position + lowShift as real)
    ensures !lowHit && highOut && velocity > 0.0 ==>
              a == AxisBounce(true, -velocity, position + highShift as real) && a.velocity < 0.0
    ensures !lowHit && !(highOut && velocity > 0.0) ==> a == AxisBounce(false, velocity, position)
  {
    if lowHit then AxisBounce(true, -velocity, position + lowShift as real)
    else if highOut && velocity > 0.0 then AxisBounce(true, -velocity, position + highShift as real)
    else AxisBounce(false, velocity, position)
  }

  /** One `add_component(eid, 'angular-momentum', -angular_momentum)` per axis that bounced. */
  function SpinWrites(eid: int, angular: real, h: AxisBounce, v: AxisBounce): (w: seq<ComponentWrite>)
    ensures |w| == (if h.hit then 1 else 0) + (if v.hit then 1 else 0)
    ensures forall i :: 0 <= i < |w| ==> w[i] == ComponentWrite(eid, "angular-momentum", -angular)
  {
    var write := ComponentWrite(eid, "angular-momentum", -angular);
    (if h.hit then [write] else []) + (if v.hit then [write] else [])
  }

  /** `container_system` as written. The top-edge test reads the x momentum,
      and reads it after the horizontal branch may have negated it. */
  function Bounce(eid: int, container: Rect, rect: Rect, position: Vec2, momentum: Vec2, angular: real): (b: Bounced)
    // left wall: reflect x and push right by -2 * rect.left
    ensures rect.left < container.left && momentum.x < 0.0 ==>
              b.momentum.x == -momentum.x > 0.0 && b.position.x == position.x - 2.0 * rect.left as real
    // right wall, only when the left branch did not fire
    ensures !(rect.left < container.left && momentum.x < 0.0) && rect.Right() > container.Right() && momentum.x > 0.0 ==>
              b.momentum.x == -momentum.x < 0.0
              && b.position.x == position.x + 2.0 * (container.width - rect.Right()) as real
    ensures !(rect.left < container.left && momentum.x < 0.0) && !(rect.Right() > container.Right() && momentum.x > 0.0) ==>
              b.momentum.x == momentum.x && b.position.x == position.x
    // top wall, guarded by the (updated) x momentum
    ensures rect.top < container.top && b.momentum.x < 0.0 ==>
              b.momentum.y == -momentum.y && b.position.y == position.y - 2.0 * rect.top as real
    ensures !(rect.top < container.top && b.momentum.x < 0.0) && rect.Bottom() > container.Bottom() && momentum.y > 0.0 ==>
              b.momentum.y == -momentum.y < 0.0
              && b.position.y == position.y + 2.0 * (container.height - rect.Bottom()) as real
    ensures !(rect.top < container.top && b.momentum.x < 0.0) && !(rect.Bottom() > container.Bottom() && momentum.y > 0.0) ==>
              b.momentum.y == momentum.y && b.position.y == position.y
    // one write per axis whose branch fired, each the negated angular momentum
    ensures |b.writes| ==
              (if (rect.left < container.left && momentum.x < 0.0) || (rect.Right() > container.Right() && momentum.x > 0.0)
               then 1 else 0)
              + (if (rect.top < container.top && b.momentum.x < 0.0) || (rect.Bottom() > container.Bottom() && momentum.y > 0.0)
                 then 1 else 0)
    ensures forall i :: 0 <= i < |b.writes| ==> b.writes[i] == ComponentWrite(eid, "angular-momentum", -angular)
  {
    var h := BounceAxis(rect.left < container.left && momentum.x < 0.0, rect.Right() > container.Right(),
                        momentum.x, position.x, -2 * rect.left, 2 * (container.width - rect.Right()));
    var v := BounceAxis(rect.top < container.top && h.velocity < 0.0, rect.Bottom() > container.Bottom(),
                        momentum.y, position.y, -2 * rect.top, 2 * (container.height - rect.Bottom()));
    Bounced(Vec2(h.position, v.position), Vec2(h.velocity, v.velocity), SpinWrites(eid, angular, h, v))
  }

  /** When no edge test holds, nothing changes and nothing is written. */
  lemma BounceNoHit(eid: int, container: Rect, rect: Rect, position: Vec2, momentum: Vec2, angular: real)
    requires !(rect.left < container.left && momentum.x < 0.0)
    requires !(rect.Right() > container.Right() && momentum.x > 0.0)
    requires !(rect.top < container.top && momentum.x < 0.0)
    requires !(rect.Bottom() > container.Bottom() && momentum.y > 0.0)
    ensures Bounce(eid, container, rect, position, momentum, angular) == Bounced(position, momentum, [])
  {
  }

  /** For a container anchored at the origin (the screen), the position
      correction mirrors the sprite back inside: moved by the change of
      position, a rectangle that stuck out on the left or on the right ends up
      inside on that side. */
  lemma BounceMirrorsBackInside(eid: int, container: Rect, rect: Rect, position: Vec2, momentum: Vec2, angular: real)
    requires container.left == 0 && container.top == 0
    ensures var b := Bounce(eid, container, rect, position, momentum, angular);
            && (rect.left < container.left && momentum.x < 0.0 ==>
                  rect.left as real + (b.position.x - position.x) > container.left as real)
            && (rect.left >= container.left && rect.Right() > container.Right() && momentum.x > 0.0 ==>
                  rect.Right() as real + (b.position.x - position.x) < container.Right() as real)
  {
  }

  /** As written, a sprite sticking out over exactly one edge of an axis stops
      moving further out on the left, right and bottom edges (the top edge is
      the exception, see `TopBounceTestsXMomentum`). */
  lemma BounceHeadsInside(eid: int, container: Rect, rect: Rect, position: Vec2, momentum: Vec2, angular: real)
    ensures var b := Bounce(eid, container, rect, position, momentum, angular);
            && (rect.left < container.left && rect.Right() <= container.Right() ==> b.momentum.x >= 0.0)
            && (rect.Right() > container.Right() && rect.left >= container.left ==> b.momentum.x <= 0.0)
            && (rect.Bottom() > container.Bottom() && rect.top >= container.top ==> b.momentum.y <= 0.0)
  {
  }

  /** The y momentum of the top-edge test as written: a sprite above the
      container that already moves down (y > 0) but left (x < 0) is turned
      back up, and one that moves up and right is not turned at all. */
  lemma TopBounceTestsXMomentum()
    ensures Bounce(1, Rect(0, 0, 100, 100), Rect(10, -3, 4, 4), Vec2(12.0, -1.0), Vec2(-1.0, 2.0), 0.0).momentum.y == -2.0
    ensures Bounce(1, Rect(0, 0, 100, 100), Rect(10, -3, 4, 4), Vec2(12.0, -1.0), Vec2(1.0, -2.0), 0.0).momentum.y == -2.0
  {
  }

  /** `container_system` with the top-edge test on the y momentum. */
  function BounceFixed(eid: int, container: Rect, rect: Rect, position: Vec2, momentum: Vec2, angular: real): Bounced {
    var h := BounceAxis(rect.left < container.left && momentum.x < 0.0, rect.Right() > container.Right(),
                        momentum.x, position.x, -2 * rect.left, 2 * (container.width - rect.Right()));
    var v := BounceAxis(rect.top < container.top && momentum.y < 0.0, rect.Bottom() > container.Bottom(),
                        momentum.y, position.y, -2 * rect.top, 2 * (container.height - rect.Bottom()));
    Bounced(Vec2(h.position, v.position), Vec2(h.velocity, v.velocity), SpinWrites(eid, angular, h, v))
  }

  /** With the fix, a sprite sticking out over exactly one edge of an axis
      never keeps moving further out on it, on any of the four edges. */
  lemma BounceFixedHeadsInside(eid: int, container: Rect, rect: Rect, position: Vec2, momentum: Vec2, angular: real)
    ensures var b := BounceFixed(eid, container, rect, position, momentum, angular);
            && (rect.left < container.left && rect.Right() <= container.Right() ==> b.momentum.x >= 0.0)
            && (rect.Right() > container.Right() && rect.left >= container.left ==> b.momentum.x <= 0.0)
            && (rect.top < container.top && rect.Bottom() <= container.Bottom() ==> b.momentum.y >= 0.0)
            && (rect.Bottom() > container.Bottom() && rect.top >= container.top ==> b.momentum.y <= 0.0)
  {
  }

  /** `container_system(dt, eid, container, position, momentum,
      angular_momentum, sprite)`: updates the position and momentum components
      in place and returns the component writes, as `Bounce` describes. */
  method ContainerSystem(eid: int, container: Rect, position: Vector2, momentum: Vector2, angularMomentum: real,
                         spriteRect: Rect)
    returns (writes: seq<ComponentWrite>)
    requires position != momentum
    modifies position, momentum
    ensures var b := Bounce(eid, container, spriteRect, old(position.Value()), old(momentum.Value()), angularMomentum);
            position.Value() == b.position && momentum.Value() == b.momentum && writes == b.writes
  {
    var write := ComponentWrite(eid, "angular-momentum", -angularMomentum);
    writes := [];
    if spriteRect.left < container.left && momentum.x < 0.0 {
      momentum.x := -momentum.x;
      writes := writes + [write];
      position.x := position.x + (-2 * spriteRect.left) as real;
    } else if spriteRect.Right() > container.Right() && momentum.x > 0.0 {
      momentum.x := -momentum.x;
      writes := writes + [write];
      position.x := position.x + (2 * (container.width - spriteRect.Right())) as real;
    }

    if spriteRect.top < container.top && momentum.x < 0.0 {
      momentum.y := -momentum.y;
      writes := writes + [write];
      position.y := position.y + (-2 * spriteRect.top) as real;
    } else if spriteRect.Bottom() > container.Bottom() && momentum.y > 0.0 {
      momentum.y := -momentum.y;
      writes := writes + [write];
      position.y := position.y + (2 * (container.height - spriteRect.Bottom())) as real;
    }
  }

  /** What assigning to `EVSprite.image` gives. */
  datatype Assignment = Assigned | RuntimeError(message: string)

  /** A sprite whose image is whatever its factory object's `image` property
      currently returns (here a `Particle`). */
  class EVSprite {
    const imageFactory: Particle
    /** `_image`: the last image handed out. */
    var cached: Surface
    var rect: Rect

    /** The rect always has the size of the cached image. */
    ghost predicate Valid()
      reads this
    {
      rect.width == cached.width && rect.height == cached.height
    }

    /** A blank 1x1 placeholder image, with its rect placed off screen at bottom-right (-1, -1). */
    constructor (imageFactory: Particle)
      ensures Valid()
      ensures this.imageFactory == imageFactory
      ensures cached == Surface(1, 1, 0)
      ensures rect == RectWithBottomRight(-1, -1, 1, 1)
    {
      this.imageFactory := imageFactory;
      cached := Surface(1, 1, 0);
      rect := RectWithBottomRight(-1, -1, 1, 1);
    }

    /** The `image` getter: an identical image leaves the rect alone; a new
        one is cached and the rect is resized to it around the same centre. */
    method Image() returns (image: Surface)
      requires Valid()
      modifies this`cached, this`rect
      ensures Valid()
      ensures image == imageFactory.Image() && cached == image
      ensures image == old(cached) ==> rect == old(rect)
      ensures image != old(cached) ==>
                rect.width == image.width && rect.height == image.height
      ensures rect.CenterX() == old(rect.CenterX()) && rect.CenterY() == old(rect.CenterY())
      // whether the new image is the cached one or not, the rect is the image's
      // size placed around the old centre
      ensures rect == RectWithCenter(old(rect.CenterX()), old(rect.CenterY()), image.width, image.height)
    {
      var newImage := imageFactory.Image();
      if newImage == cached {
        RecenterSameSize(rect);
        return cached;
      } else {
        cached := newImage;
        rect := RectWithCenter(rect.CenterX(), rect.CenterY(), cached.width, cached.height);
      }
      image := cached;
    }

    /** The `image` setter always raises. */
    method SetImage(image: Surface) returns (r: Assignment)
      ensures r.RuntimeError?
    {
      r := RuntimeError("EVSprite.image is dynamically generated.");
    }
  }
}
