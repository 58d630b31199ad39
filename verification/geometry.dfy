/**
 The part of pygame's `Rect` the game uses: integer left/top/width/height,
 the `centery` property, and `colliderect`.
 */
module Geometry {

  /** A pygame rectangle in pixels: left `x`, top `y`, width `w`, height `h`. */
  datatype Rect = Rect(x: int, y: int, w: int, h: int)

  /** `Rect.centery` reads as top plus half the height, rounded down. */
  function CenterY(r: Rect): int
  {
    r.y + r.h / 2
  }

  /** `Rect.centery = cy` moves the rectangle vertically, keeping its size. */
  function WithCenterY(r: Rect, cy: int): (r': Rect)
    ensures CenterY(r') == cy
    ensures r'.x == r.x && r'.w == r.w && r'.h == r.h
  {
    r.(y := cy - r.h / 2)
  }

  /** `a.colliderect(b)`, taken as strict overlap of the two rectangles'
      interiors on both axes (the rectangles here all have positive size). */
  predicate Overlap(a: Rect, b: Rect)
  {
    && a.x < b.x + b.w
    && b.x < a.x + a.w
    && a.y < b.y + b.h
    && b.y < a.y + a.h
  }

  /** The integer pixel a float coordinate becomes when a rectangle is built
      from it; the model truncates toward zero, as a C cast does. */
  function TruncDiv(a: int, b: int): int
    requires b > 0
  {
    if a >= 0 then a / b else -((-a) / b)
  }
}
