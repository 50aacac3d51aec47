/** `e2d::ScaleBy`: changes its target's scale by fixed amounts per axis over
    the action's duration, from the scale captured at `_init`.

    As for `MoveBy`, the progress `_delta` is an input of `Update`. */
module ScaleByAction {
  import opened Nodes

  /** The scale on one axis at progress `delta`, from `start` by `amount`. */
  function ScaleAt(start: real, amount: real, delta: real): (r: real)
    ensures delta == 0.0 ==> r == start
    ensures delta == 1.0 ==> r == start + amount
    ensures r - start == amount * delta
  {
    start + amount * delta
  }

  /** Running the reverse to completion from where the action ended brings
      each axis back to its start. */
  lemma ReverseUndoes(start: real, amount: real)
    ensures ScaleAt(ScaleAt(start, amount, 1.0), -amount, 1.0) == start
  {
  }

  /** Progress moves the scale linearly: equal steps of progress give equal
      steps of scale. */
  lemma ScaleIsAffine(start: real, amount: real, d1: real, d2: real)
    ensures ScaleAt(start, amount, d2) - ScaleAt(start, amount, d1) == amount * (d2 - d1)
  {
  }

  class ScaleBy {
    const duration: real
    const deltaX: real
    const deltaY: real
    var target: Node?
    var startScaleX: real
    var startScaleY: real

    /** `ScaleBy(duration, scale)`: the same amount on both axes. */
    constructor Uniform(duration: real, scale: real)
      ensures this.duration == duration && deltaX == scale && deltaY == scale
      ensures target == null
    {
      this.duration := duration;
      deltaX := scale;
      deltaY := scale;
      target := null;
      startScaleX := 0.0;
      startScaleY := 0.0;
    }

    /** `ScaleBy(duration, scaleX, scaleY)`. */
    constructor (duration: real, scaleX: real, scaleY: real)
      ensures this.duration == duration && deltaX == scaleX && deltaY == scaleY
      ensures target == null
    {
      this.duration := duration;
      deltaX := scaleX;
      deltaY := scaleY;
      target := null;
      startScaleX := 0.0;
      startScaleY := 0.0;
    }

    /** The binding done by the action base class before `_init`. */
    method Bind(t: Node?)
      modifies this`target
      ensures target == t
    {
      target := t;
    }

    /** `_init`: with a target, captures its current scale; without one,
        nothing. */
    method Init()
      modifies this`startScaleX, this`startScaleY
      ensures target != null ==> startScaleX == target.scaleX && startScaleY == target.scaleY
      ensures target == null ==> startScaleX == old(startScaleX) && startScaleY == old(startScaleY)
    {
      if target != null {
        startScaleX := target.scaleX;
        startScaleY := target.scaleY;
      }
    }

    /** `_update` with progress `delta`: with a target, sets its scale from
        the captured start alone, whatever its current scale; the position
        is left alone. */
    method Update(delta: real)
      modifies target
      ensures target != null ==>
        target.scaleX == ScaleAt(startScaleX, deltaX, delta) && target.scaleY == ScaleAt(startScaleY, deltaY, delta)
      ensures target != null ==> target.position == old(target.position)
    {
      if target != null {
        target.scaleX, target.scaleY := startScaleX + deltaX * delta, startScaleY + deltaY * delta;
      }
    }

    /** `clone()`: a new, unbound action with the same duration and deltas. */
    method Clone() returns (r: ScaleBy)
      ensures fresh(r) && r.target == null
      ensures r.duration == duration && r.deltaX == deltaX && r.deltaY == deltaY
    {
      r := new ScaleBy(duration, deltaX, deltaY);
    }

    /** `reverse()`: a new, unbound action with the same duration and both
        deltas negated; the reverse of the reverse has the original deltas. */
    method Reverse() returns (r: ScaleBy)
      ensures fresh(r) && r.target == null
      ensures r.duration == duration && r.deltaX == -deltaX && r.deltaY == -deltaY
      ensures -r.deltaX == deltaX && -r.deltaY == deltaY
    {
      r := new ScaleBy(duration, -deltaX, -deltaY);
    }
  }

  /** A client: updating twice with the same progress gives the same scale,
      because the update reads the captured start, not the target. */
  method UpdateIgnoresCurrentScale(s: ScaleBy, delta: real)
    requires s.target != null
    modifies s.target
    ensures s.target.scaleX == ScaleAt(s.startScaleX, s.deltaX, delta)
    ensures s.target.scaleY == ScaleAt(s.startScaleY, s.deltaY, delta)
  {
    s.Update(delta);
    s.target.scaleX := s.target.scaleX * 2.0 + 1.0;
    s.Update(delta);
  }
}
