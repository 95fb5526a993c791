/** Axis-aligned rectangles and the overlap test that every hit test of the game uses
    (pygame's `Rect.colliderect`). */
module Geometry {

  /** A pygame Rect: top-left corner and a non-negative size. */
  datatype Rect = Rect(x: int, y: int, w: nat, h: nat)

  /** A width and a height, for sizes taken from images. */
  datatype Size = Size(w: nat, h: nat)

  /** pygame 2's `colliderect`: a rectangle of zero width or height collides with nothing;
      otherwise the two interiors must intersect, so rectangles that only share an edge
      do not collide. */
  predicate Overlaps(a: Rect, b: Rect)
  {
    && a.w > 0 && a.h > 0 && b.w > 0 && b.h > 0
    && a.x < b.x + b.w && b.x < a.x + a.w
    && a.y < b.y + b.h && b.y < a.y + a.h
  }

  /** The test does not depend on which rectangle asks. */
  lemma OverlapsSymmetric(a: Rect, b: Rect)
    ensures Overlaps(a, b) == Overlaps(b, a)
  {
  }

  /** Rectangles that only touch along an edge, side by side or one above the other, do not
      collide. */
  lemma TouchingEdgesDoNotOverlap(a: Rect, b: Rect)
    requires a.x + a.w == b.x || a.y + a.h == b.y
    ensures !Overlaps(a, b)
  {
  }
}
