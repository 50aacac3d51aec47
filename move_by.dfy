/** `e2d::MoveBy`: moves its target by a fixed vector over the action's
    duration, following any displacement the target receives from elsewhere
    while the action runs.

    The progress `_delta` that `FiniteTimeAction::_update` computes from the
    elapsed time is an input of `Update`; the base class's own bookkeeping
    is not modelled. */
module MoveByAction {
  import opened Vectors
  import opened Nodes

  /** The action's position fields together with the target's position. */
  datatype MoveState = MoveState(start: Vector2, prev: Vector2, position: Vector2)

  /** What one frame does from outside the action: the target is displaced
      by `drift`, then the action updates with progress `delta`. */
  datatype Frame = Frame(drift: Vector2, delta: real)

  /** One `_update` with the target at `s.position`: re-base the start on the
      drift since the last write, then place the target. */
  function Updated(s: MoveState, deltaPos: Vector2, delta: real): (r: MoveState)
    ensures r.prev == r.position
    ensures r.position == r.start.Plus(deltaPos.Times(delta))
    ensures r.start.Minus(s.start) == s.position.Minus(s.prev)
  {
    var start := s.start.Plus(s.position.Minus(s.prev));
    var placed := start.Plus(deltaPos.Times(delta));
    MoveState(start, placed, placed)
  }

  /** One frame: the external displacement, then the update. */
  function Step(s: MoveState, deltaPos: Vector2, f: Frame): MoveState {
    Updated(s.(position := s.position.Plus(f.drift)), deltaPos, f.delta)
  }

  /** A run of frames, first to last. */
  function Run(s: MoveState, deltaPos: Vector2, frames: seq<Frame>): MoveState
    decreases |frames|
  {
    if frames == [] then s else Run(Step(s, deltaPos, frames[0]), deltaPos, frames[1..])
  }

  /** The sum of the external displacements of a run. */
  function TotalDrift(frames: seq<Frame>): Vector2
    decreases |frames|
  {
    if frames == [] then Zero else frames[0].drift.Plus(TotalDrift(frames[1..]))
  }

  /** When nothing moved the target since the last write, the start stays
      where `_init` captured it and the target lands at start plus delta
      times progress. */
  lemma NoDriftKeepsStart(s: MoveState, deltaPos: Vector2, delta: real)
    requires s.prev == s.position
    ensures Updated(s, deltaPos, delta).start == s.start
    ensures Updated(s, deltaPos, delta).position == s.start.Plus(deltaPos.Times(delta))
  {
  }

  /** An external displacement `d` between two updates shifts the written
      position by exactly `d`. */
  lemma DriftShiftsPosition(s: MoveState, deltaPos: Vector2, d: Vector2, delta: real)
    ensures Step(s, deltaPos, Frame(d, delta)).position
         == Step(s, deltaPos, Frame(Zero, delta)).position.Plus(d)
  {
  }

  /** Over a whole run started right after `_init` (or any update), the start
      has moved by exactly the total external displacement, and after the
      last frame the target sits at that start plus delta times the last
      progress: repositioning mid-animation never loses the relative move. */
  lemma {:induction false} RunFollowsDrift(s: MoveState, deltaPos: Vector2, frames: seq<Frame>)
    requires s.prev == s.position
    ensures Run(s, deltaPos, frames).start == s.start.Plus(TotalDrift(frames))
    ensures Run(s, deltaPos, frames).prev == Run(s, deltaPos, frames).position
    ensures frames != [] ==>
      Run(s, deltaPos, frames).position
        == s.start.Plus(TotalDrift(frames)).Plus(deltaPos.Times(frames[|frames| - 1].delta))
    decreases |frames|
  {
    if frames != [] {
      var s' := Step(s, deltaPos, frames[0]);
      RunFollowsDrift(s', deltaPos, frames[1..]);
      if |frames| > 1 {
        assert frames[1..][|frames[1..]| - 1] == frames[|frames| - 1];
      }
    }
  }

  /** Running the action to completion from `_init` at `p`, then running the
      reverse (negated vector) to completion from its own `_init` at the
      position reached, brings the target back to `p`. */
  lemma ReverseUndoes(p: Vector2, deltaPos: Vector2)
    ensures var done := Updated(MoveState(p, p, p), deltaPos, 1.0);
      var q := done.position;
      Updated(MoveState(q, q, q), deltaPos.Negated(), 1.0).position == p
  {
  }

  /** Negating twice gives back the delta, so the reverse of the reverse has
      the original parameters. */
  lemma ReverseInvolution(deltaPos: Vector2)
    ensures deltaPos.Negated().Negated() == deltaPos
  {
  }

  class MoveBy {
    const duration: real
    const deltaPos: Vector2
    var target: Node?
    var startPos: Vector2
    var prevPos: Vector2

    /** `MoveBy(duration, vector)`: unbound, with its positions at the origin. */
    constructor (duration: real, vector: Vector2)
      ensures this.duration == duration && deltaPos == vector
      ensures target == null && startPos == Zero && prevPos == Zero
    {
      this.duration := duration;
      deltaPos := vector;
      target := null;
      startPos := Zero;
      prevPos := Zero;
    }

    /** The binding done by the action base class before `_init`. */
    method Bind(t: Node?)
      modifies this`target
      ensures target == t
    {
      target := t;
    }

    /** `_init`: with a target, both the start and the last written position
        become the target's current position; without one, nothing. */
    method Init()
      modifies this`startPos, this`prevPos
      ensures target != null ==> startPos == target.position && prevPos == target.position
      ensures target == null ==> startPos == old(startPos) && prevPos == old(prevPos)
    {
      if target != null {
        startPos := target.position;
        prevPos := startPos;
      }
    }

    /** `_update` with progress `delta`: with a target, the drift-corrected
        step of `Updated`, touching only the target's position; without one,
        nothing. */
    method Update(delta: real)
      modifies this`startPos, this`prevPos, target
      ensures target == old(target)
      ensures target != null ==>
        MoveState(startPos, prevPos, target.position)
          == Updated(MoveState(old(startPos), old(prevPos), old(target.position)), deltaPos, delta)
      ensures target != null ==> target.scaleX == old(target.scaleX) && target.scaleY == old(target.scaleY)
      ensures target == null ==> startPos == old(startPos) && prevPos == old(prevPos)
    {
      if target != null {
        var currentPos := target.position;
        var diff := currentPos.Minus(prevPos);
        startPos := startPos.Plus(diff);
        var newPos := startPos.Plus(deltaPos.Times(delta));
        target.position := newPos;
        prevPos := newPos;
      }
    }

    /** `clone()`: a new, unbound action with the same duration and vector. */
    method Clone() returns (r: MoveBy)
      ensures fresh(r) && r.target == null
      ensures r.duration == duration && r.deltaPos == deltaPos
    {
      r := new MoveBy(duration, deltaPos);
    }

    /** `reverse()`: a new, unbound action with the same duration and the
        negated vector. */
    method Reverse() returns (r: MoveBy)
      ensures fresh(r) && r.target == null
      ensures r.duration == duration && r.deltaPos == deltaPos.Negated()
    {
      r := new MoveBy(duration, deltaPos.Negated());
    }
  }

  /** A client: one action cloned onto two different nodes; updating each
      moves only its own node, from its own baseline. */
  method ClonesRunIndependently(m: MoveBy, a: Node, b: Node, delta: real)
    requires a != b
    modifies a, b
    ensures a.position == old(a.position).Plus(m.deltaPos.Times(delta))
    ensures b.position == old(b.position).Plus(m.deltaPos.Times(delta))
  {
    var first := m.Clone();
    var second := m.Clone();
    first.Bind(a);
    second.Bind(b);
    first.Init();
    second.Init();
    first.Update(delta);
    second.Update(delta);
  }

  /** A client: run a clone of the action to completion on `n`, then its
      reverse; `n` is back where it started, and its scale is untouched. */
  method ReverseRunUndoes(m: MoveBy, n: Node)
    modifies n
    ensures n.position == old(n.position)
    ensures n.scaleX == old(n.scaleX) && n.scaleY == old(n.scaleY)
  {
    var forward := m.Clone();
    forward.Bind(n);
    forward.Init();
    forward.Update(1.0);
    var backward := m.Reverse();
    backward.Bind(n);
    backward.Init();
    backward.Update(1.0);
    ReverseUndoes(old(n.position), m.deltaPos);
  }
}
