/** `e2d::EActionLoop`: repeats a child action for ever, owning a reference
    to it.

    The bodies of the base class `EAction` are not part of this model.
    `EAction` below keeps only its count, target, initialised flag and
    ending flag, and each of its methods changes only the field its name
    says. */
module ActionLoop {
  import opened Nodes

  /** `e2d::EAction`: its reference count, bound target, and whether it has
      been initialised and is ending. */
  class EAction {
    var refCount: int
    var target: Node?
    var initialized: bool
    var ending: bool

    constructor ()
      ensures refCount == 0 && target == null && !initialized && !ending
    {
      refCount := 0;
      target := null;
      initialized := false;
      ending := false;
    }

    /** `retain()` */
    method Retain()
      modifies this`refCount
      ensures refCount == old(refCount) + 1
    {
      refCount := refCount + 1;
    }

    /** `release()`: one reference fewer; destruction is left to the pool. */
    method Release()
      modifies this`refCount
      ensures refCount == old(refCount) - 1
    {
      refCount := refCount - 1;
    }

    /** `setTarget(t)` */
    method SetTarget(t: Node?)
      modifies this`target
      ensures target == t
    {
      target := t;
    }

    /** `_init()` */
    method Init()
      modifies this`initialized
      ensures initialized
    {
      initialized := true;
    }

    /** `_callOn()`: one step of the action; `endsNow` says whether this step
        brought it to its end, which `_isEnding()` then reports. */
    method CallOn(endsNow: bool)
      modifies this`ending
      ensures ending == endsNow
    {
      ending := endsNow;
    }

    /** `_reset()`: back to a state that is not ending. */
    method Reset()
      modifies this`ending
      ensures !ending
    {
      ending := false;
    }

    /** `clone()`: a new, unbound action with no references yet. */
    method Clone() returns (r: EAction)
      ensures fresh(r) && r.refCount == 0 && r.target == null && !r.ending
    {
      r := new EAction();
    }
  }

  class EActionLoop {
    /** `m_Action`, null only after destruction. */
    var child: EAction?
    /** The loop's own `EAction` state: `m_pTarget`, initialised, ending. */
    var target: Node?
    var initialized: bool
    var ending: bool

    /** `EActionLoop(action)`: wraps `action` and retains it once. */
    constructor (action: EAction)
      modifies action`refCount
      ensures child == action && action.refCount == old(action.refCount) + 1
      ensures action.target == old(action.target) && action.ending == old(action.ending)
      ensures action.initialized == old(action.initialized)
      ensures target == null && !initialized && !ending
    {
      child := action;
      target := null;
      initialized := false;
      ending := false;
      new;
      action.Retain();
    }

    /** `~EActionLoop()`: `SafeReleaseAndClear(&m_Action)` releases the child
        once, if there is one, and clears the reference. */
    method Dispose()
      modifies this`child, (if child == null then {} else {child})`refCount
      ensures child == null
      ensures old(child) != null ==> old(child).refCount == old(child.refCount) - 1
      ensures old(child) != null ==> old(child).target == old(child.target) && old(child).ending == old(child.ending)
      ensures old(child) != null ==> old(child).initialized == old(child.initialized)
    {
      if child != null {
        child.Release();
        child := null;
      }
    }

    /** `clone()`: a new loop around a clone of the child, never the child
        itself; the new loop holds the clone's only reference. */
    method Clone() returns (r: EActionLoop)
      requires child != null
      ensures fresh(r) && r.child != null && fresh(r.child) && r.child != child
      ensures r.child.refCount == 1 && r.child.target == null
      ensures r.target == null && !r.initialized && !r.ending
    {
      var c := child.Clone();
      r := new EActionLoop(c);
    }

    /** `_init()`: the base initialisation, then the child is bound to the
        loop's target if it has none and the loop has one (a child's own
        target is kept), then the child is initialised. */
    method Init()
      requires child != null
      modifies this`initialized, child
      ensures initialized && child.initialized
      ensures child.target == if old(child.target) == null && target != null then target else old(child.target)
      ensures child.refCount == old(child.refCount) && child.ending == old(child.ending)
    {
      initialized := true;
      if child.target == null && target != null {
        child.SetTarget(target);
      }
      child.Init();
    }

    /** `_callOn()`: steps the child once and resets it if that step ended
        it, so the child is never left ending; the loop itself never ends. */
    method CallOn(childEndsNow: bool)
      requires child != null
      modifies child
      ensures !child.ending
      ensures child.target == old(child.target) && child.refCount == old(child.refCount)
      ensures child.initialized == old(child.initialized)
    {
      child.CallOn(childEndsNow);
      if child.ending {
        child.Reset();
      }
    }

    /** `_reset()`: resets only the loop's own base state; the child is not
        touched. */
    method Reset()
      modifies this`ending
      ensures !ending
    {
      ending := false;
    }
  }

  /** A client: a loop keeps its child alive exactly while it exists, and a
      child stepped through any number of endings is never left ending. */
  method LoopOwnsChild(action: EAction, steps: seq<bool>)
    modifies action
    ensures action.refCount == old(action.refCount)
    ensures |steps| > 0 ==> !action.ending
  {
    var loop := new EActionLoop(action);
    var i := 0;
    while i < |steps|
      invariant 0 <= i <= |steps|
      invariant loop.child == action && action.refCount == old(action.refCount) + 1
      invariant i > 0 ==> !action.ending
    {
      loop.CallOn(steps[i]);
      i := i + 1;
    }
    loop.Dispose();
  }
}
