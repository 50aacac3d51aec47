/** `e2d::Point` / `e2d::Vector2` over the reals, with the arithmetic the
    actions use. */
module Vectors {

  datatype Vector2 = Vector2(x: real, y: real) {

    /** `a + b` */
    function Plus(v: Vector2): Vector2 {
      Vector2(x + v.x, y + v.y)
    }

    /** `a - b` */
    function Minus(v: Vector2): Vector2 {
      Vector2(x - v.x, y - v.y)
    }

    /** `a * k` */
    function Times(k: real): Vector2 {
      Vector2(x * k, y * k)
    }

    /** `-a` */
    function Negated(): Vector2 {
      Vector2(-x, -y)
    }
  }

  /** The origin, which `Point()` also yields. */
  const Zero := Vector2(0.0, 0.0)
}

/** The scene-graph node an action is bound to: only the properties the actions
    read and write. */
module Nodes {
  import opened Vectors

  class Node {
    var position: Vector2
    var scaleX: real
    var scaleY: real

    constructor (position: Vector2, scaleX: real, scaleY: real)
      ensures this.position == position && this.scaleX == scaleX && this.scaleY == scaleY
    {
      this.position := position;
      this.scaleX := scaleX;
      this.scaleY := scaleY;
    }
  }
}
