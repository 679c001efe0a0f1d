/** Two-component vectors: a value type for agent kinematics and a mutable object for THREE.Vector2. */
module Vectors {

  datatype Vec2 = Vec2(x: real, y: real)

  /**
   * A THREE.Vector2 object. Its identity matters: `setX`/`setY` change it in place,
   * so two fields that share one object see each other's edits, while `clone` makes a copy.
   */
  class Vector2 {
    var x: real
    var y: real

    constructor (x0: real, y0: real)
      ensures x == x0 && y == y0
    {
      x, y := x0, y0;
    }

    method SetX(v: real)
      modifies this
      ensures x == v && y == old(y)
    {
      x := v;
    }

    method SetY(v: real)
      modifies this
      ensures y == v && x == old(x)
    {
      y := v;
    }

    method Clone() returns (c: Vector2)
      ensures fresh(c)
      ensures c.x == x && c.y == y
    {
      c := new Vector2(x, y);
    }
  }
}
