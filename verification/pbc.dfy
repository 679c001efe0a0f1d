/**
 * Periodic boundary conditions: a vector component that left the domain on
 * one side is shifted back by one domain extent, once, per axis.
 */
module PeriodicBoundary {
  import opened Vectors
  import opened ParameterSet

  /** One axis of the wrap: shift by the extent `w` when `x` is more than `w/2` away from `c`. */
  function Wrap(x: real, c: real, w: real): (r: real)
    ensures r == x || r == x - w || r == x + w
    ensures c - w / 2.0 <= x <= c + w / 2.0 ==> r == x
  {
    if x > c + w / 2.0 then x - w
    else if x < c - w / 2.0 then x + w
    else x
  }

  /** Components beyond the upper bound move down by `w`; below the lower bound (and not beyond the upper) they move up. */
  lemma WrapDirection(x: real, c: real, w: real)
    ensures x > c + w / 2.0 ==> Wrap(x, c, w) == x - w
    ensures !(x > c + w / 2.0) && x < c - w / 2.0 ==> Wrap(x, c, w) == x + w
  {
  }

  /** A component at most one and a half extents from the centre lands inside the domain. */
  lemma WrapInRange(x: real, c: real, w: real)
    requires w > 0.0
    requires c - 3.0 * w / 2.0 <= x <= c + 3.0 * w / 2.0
    ensures c - w / 2.0 <= Wrap(x, c, w) <= c + w / 2.0
  {
  }

  /** Within that range, wrapping twice is wrapping once. */
  lemma WrapIdempotent(x: real, c: real, w: real)
    requires w > 0.0
    requires c - 3.0 * w / 2.0 <= x <= c + 3.0 * w / 2.0
    ensures Wrap(Wrap(x, c, w), c, w) == Wrap(x, c, w)
  {
    WrapInRange(x, c, w);
  }

  /** The centre the wrap is taken about: the domain centre for positions, the origin for distances. */
  function WrapCenter(kind: string, center: Vec2): (c: Vec2)
    ensures kind == "position" ==> c == center
    ensures kind != "position" ==> c == Vec2(0.0, 0.0)
  {
    if kind == "position" then center else Vec2(0.0, 0.0)
  }

  /**
   * Applies the wrap to `v` in place. The centre is copied before either axis
   * is adjusted, so `v` may even be the parameters' own centre vector.
   */
  method ApplyPBC2Vector(v: Vector2, kind: string, params: Parameters)
    modifies v
    ensures
      var c := WrapCenter(kind, Vec2(old(params.center.x), old(params.center.y)));
      v.x == Wrap(old(v.x), c.x, old(params.width)) &&
      v.y == Wrap(old(v.y), c.y, old(params.height))
  {
    var c := Vec2(0.0, 0.0);
    if kind == "position" {
      c := Vec2(params.center.x, params.center.y);
    }
    if v.x > c.x + params.width / 2.0 {
      v.SetX(v.x - params.width);
    } else if v.x < c.x - params.width / 2.0 {
      v.SetX(v.x + params.width);
    }
    if v.y > c.y + params.height / 2.0 {
      v.SetY(v.y - params.height);
    } else if v.y < c.y - params.height / 2.0 {
      v.SetY(v.y + params.height);
    }
  }
}
