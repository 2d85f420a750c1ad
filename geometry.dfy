// Value types shared by the model: optional values, pygame's Vector2 and
// Rect as values, and rendered surfaces.

module Geometry {

  /** Python's `None` or a value. */
  datatype Option<+T> = None | Some(value: T)

  /** A pygame `Vector2` read as a value (exact reals instead of doubles). */
  datatype Vec2 = Vec2(x: real, y: real) {

    /** `self + other` */
    function Add(other: Vec2): Vec2 {
      Vec2(x + other.x, y + other.y)
    }

    /** Squared Euclidean length. */
    function Norm2(): real {
      x * x + y * y
    }
  }

  /** `Vector2()` / `Vector2(0, 0)` */
  const Zero := Vec2(0.0, 0.0)

  /** A pygame `Rect`: integer corner, width and height. */
  datatype Rect = Rect(left: int, top: int, width: int, height: int) {

    function Right(): int {
      left + width
    }

    function Bottom(): int {
      top + height
    }

    function CenterX(): int {
      left + width / 2
    }

    function CenterY(): int {
      top + height / 2
    }
  }

  /** `surface.get_rect(center=(cx, cy))`: a rectangle of the surface's size placed
      so that its centre is (cx, cy). */
  function RectWithCenter(cx: int, cy: int, width: nat, height: nat): (r: Rect)
    ensures r.CenterX() == cx && r.CenterY() == cy
    ensures r.width == width && r.height == height
  {
    Rect(cx - width / 2, cy - height / 2, width, height)
  }

  /** Placing a rectangle's own size around its own centre gives the same
      rectangle back. */
  lemma RecenterSameSize(rect: Rect)
    requires rect.width >= 0 && rect.height >= 0
    ensures RectWithCenter(rect.CenterX(), rect.CenterY(), rect.width, rect.height) == rect
  {
  }

  /** `surface.get_rect(bottomright=(r, b))` */
  function RectWithBottomRight(r: int, b: int, width: nat, height: nat): (rect: Rect)
    ensures rect.Right() == r && rect.Bottom() == b
    ensures rect.width == width && rect.height == height
  {
    Rect(r - width, b - height, width, height)
  }

  /** A rendered pygame surface. `content` is an abstract fingerprint of its
      pixels. The `is` test of `EVSprite.image` is modelled as equality of these
      values; `RecenterSameSize` is why that loses nothing there. */
  datatype Surface = Surface(width: nat, height: nat, content: int)
}
