/** `IntrusivePtr<_Ty, _Manager, true>`: a handle that keeps an intrusively
    counted object alive.

    The `_Manager` policy is a static type in the source; here it is one
    `Manager` object, holding the reference count of every object, which all
    handles of one kind share. Its `AddRef` and `Release` ignore null, as the
    destructor relies on. The converting copy constructor (from a handle to a
    derived type) is modelled by `Copy`, since pointee types are not modelled. */
module IntrusivePtrs {
  import opened Refs

  /** The `_Manager` policy: the reference counts it maintains. */
  class Manager {
    var counts: map<Ptr, int>

    constructor (counts: map<Ptr, int>)
      ensures this.counts == counts
    {
      this.counts := counts;
    }

    /** `_Manager::AddRef(p)`. */
    method AddRef(p: Ptr)
      modifies this
      ensures counts == Retained(old(counts), p)
    {
      counts := Retained(counts, p);
    }

    /** `_Manager::Release(p)`. */
    method Release(p: Ptr)
      modifies this
      ensures counts == Released(old(counts), p)
    {
      counts := Released(counts, p);
    }
  }

  /** The counts after a handle holding `held` is re-pointed at `given`
      (copy or raw-pointer assignment): nothing happens when they are equal;
      otherwise `given` is retained and then `held` released. */
  function Reassigned(counts: map<Ptr, int>, held: Ptr, given: Ptr): (r: map<Ptr, int>)
    ensures forall q :: Count(r, q) - Count(counts, q) == if given == held || q == Null then 0 else (if q == given then 1 else 0) - (if q == held then 1 else 0)
  {
    if given == held then counts else Released(Retained(counts, given), held)
  }

  class IntrusivePtr {
    const manager: Manager
    var ptr: Ptr

    /** `IntrusivePtr()` and `IntrusivePtr(nullptr)`: holds null, retains nothing. */
    constructor Empty(manager: Manager)
      ensures this.manager == manager && ptr == Null
    {
      this.manager := manager;
      ptr := Null;
    }

    /** `IntrusivePtr(Type* p)`: holds `p` and retains it once. */
    constructor FromRaw(manager: Manager, p: Ptr)
      modifies manager
      ensures this.manager == manager && ptr == p
      ensures manager.counts == Retained(old(manager.counts), p)
    {
      this.manager := manager;
      ptr := p;
      new;
      manager.AddRef(ptr);
    }

    /** The copy constructor (and the converting copy): shares the pointer
        and retains it once. */
    constructor Copy(other: IntrusivePtr)
      modifies other.manager
      ensures manager == other.manager && ptr == other.ptr
      ensures manager.counts == Retained(old(other.manager.counts), other.ptr)
    {
      manager := other.manager;
      ptr := other.ptr;
      new;
      manager.AddRef(ptr);
    }

    /** The move constructor: steals the pointer, leaves the source null and
        changes no count. */
    constructor Move(other: IntrusivePtr)
      modifies other
      ensures manager == other.manager && ptr == old(other.ptr) && other.ptr == Null
    {
      manager := other.manager;
      ptr := other.ptr;
      new;
      other.ptr := Null;
    }

    /** `~IntrusivePtr()`: releases the held object once (null included,
        which the manager ignores). The handle is not used afterwards. */
    method Dispose()
      modifies manager
      ensures manager.counts == Released(old(manager.counts), ptr)
    {
      manager.Release(ptr);
    }

    /** `Get()`. */
    function Get(): Ptr
      reads this
    {
      ptr
    }

    /** `operator bool`. */
    predicate IsSet()
      reads this
    {
      ptr != Null
    }

    /** `operator !`. */
    predicate IsNot()
      reads this
    {
      ptr == Null
    }

    /** `operator ->` and `operator *`: the held object, which must exist. */
    function Deref(): (p: Ptr)
      reads this
      requires ptr != Null
      ensures p != Null && p == Get()
    {
      ptr
    }

    /** `Swap(other)`: exchanges the two pointers; no count changes. */
    method Swap(other: IntrusivePtr)
      modifies this, other
      ensures ptr == old(other.ptr) && other.ptr == old(ptr)
    {
      ptr, other.ptr := other.ptr, ptr;
    }

    /** `Reset()`: `IntrusivePtr{}.Swap(*this)`, then the temporary dies. */
    method Reset()
      modifies this, manager
      ensures ptr == Null
      ensures manager.counts == Released(old(manager.counts), old(ptr))
    {
      var tmp := new IntrusivePtr.Empty(manager);
      tmp.Swap(this);
      tmp.Dispose();
    }

    /** Copy assignment: a no-op when both hold the same pointer, otherwise
        copy to a temporary, swap it in, and let the temporary release the
        old object. */
    method AssignCopy(other: IntrusivePtr)
      requires other.manager == manager
      modifies this, manager
      ensures ptr == old(other.ptr)
      ensures manager.counts == Reassigned(old(manager.counts), old(ptr), old(other.ptr))
    {
      if other.ptr != ptr {
        var tmp := new IntrusivePtr.Copy(other);
        tmp.Swap(this);
        tmp.Dispose();
      }
    }

    /** Move assignment: releases the old object, takes the source's pointer
        and nulls the source, retaining nothing. Moving a handle into itself
        therefore releases its object and leaves it null. */
    method AssignMove(other: IntrusivePtr)
      requires other.manager == manager
      modifies this, other, manager
      ensures manager.counts == Released(old(manager.counts), old(ptr))
      ensures other.ptr == Null
      ensures ptr == if other == this then Null else old(other.ptr)
    {
      manager.Release(ptr);
      ptr := other.ptr;
      other.ptr := Null;
    }

    /** Raw-pointer assignment: like copy assignment, from `IntrusivePtr(p)`. */
    method AssignRaw(p: Ptr)
      modifies this, manager
      ensures ptr == p
      ensures manager.counts == Reassigned(old(manager.counts), old(ptr), p)
    {
      if p != ptr {
        var tmp := new IntrusivePtr.FromRaw(manager, p);
        tmp.Swap(this);
        tmp.Dispose();
      }
    }

    /** `operator =(nullptr)`: releases a non-null old object and holds null. */
    method AssignNull()
      modifies this, manager
      ensures ptr == Null
      ensures manager.counts == Released(old(manager.counts), old(ptr))
    {
      if Null != ptr {
        var tmp := new IntrusivePtr.Empty(manager);
        tmp.Swap(this);
        tmp.Dispose();
      }
    }
  }

  /** The free function `swap(lhs, rhs)`: `lhs.Swap(rhs)`. */
  method SwapHandles(lhs: IntrusivePtr, rhs: IntrusivePtr)
    modifies lhs, rhs
    ensures lhs.ptr == old(rhs.ptr) && rhs.ptr == old(lhs.ptr)
  {
    lhs.Swap(rhs);
  }

  /** `lhs == rhs` between handles. */
  predicate Equal(lhs: IntrusivePtr, rhs: IntrusivePtr)
    reads lhs, rhs
  {
    lhs.Get() == rhs.Get()
  }

  /** `lhs != rhs` between handles. */
  predicate NotEqual(lhs: IntrusivePtr, rhs: IntrusivePtr)
    reads lhs, rhs
  {
    lhs.Get() != rhs.Get()
  }

  /** `lhs < rhs` between handles: raw address order. */
  predicate Less(lhs: IntrusivePtr, rhs: IntrusivePtr)
    reads lhs, rhs
  {
    lhs.Get() < rhs.Get()
  }

  /** `lhs == rhs` and `rhs == lhs` between a handle and a raw pointer. */
  predicate EqualRaw(lhs: IntrusivePtr, rhs: Ptr)
    reads lhs
  {
    lhs.Get() == rhs
  }

  /** `lhs != rhs` and `rhs != lhs` between a handle and a raw pointer. */
  predicate NotEqualRaw(lhs: IntrusivePtr, rhs: Ptr)
    reads lhs
  {
    lhs.Get() != rhs
  }

  /** `lhs == nullptr` and `nullptr == lhs`. */
  predicate EqualNull(lhs: IntrusivePtr)
    reads lhs
  {
    !lhs.IsSet()
  }

  /** `lhs != nullptr` and `nullptr != lhs`. */
  predicate NotEqualNull(lhs: IntrusivePtr)
    reads lhs
  {
    lhs.IsSet()
  }

  /** The comparisons agree with one another: `!=` is the negation of `==`,
      `==` is raw-pointer equality, comparing with null is `!` and `bool`,
      and `<` is a strict total order on the held pointers. */
  lemma ComparisonLaws(a: IntrusivePtr, b: IntrusivePtr, c: IntrusivePtr)
    ensures NotEqual(a, b) <==> !Equal(a, b)
    ensures Equal(a, b) <==> EqualRaw(a, b.ptr)
    ensures NotEqualRaw(a, b.ptr) <==> !EqualRaw(a, b.ptr)
    ensures EqualNull(a) <==> a.IsNot() && EqualRaw(a, Null)
    ensures NotEqualNull(a) <==> !EqualNull(a)
    ensures Equal(a, b) <==> Equal(b, a)
    ensures !Less(a, a)
    ensures Less(a, b) && Less(b, c) ==> Less(a, c)
    ensures Less(a, b) || Equal(a, b) || Less(b, a)
    ensures Less(a, b) ==> !Less(b, a) && NotEqual(a, b)
  {
  }

  /** Re-pointing a handle and then pointing it back restores every count,
      provided the objects involved exist. */
  lemma ReassignedUndone(counts: map<Ptr, int>, held: Ptr, given: Ptr)
    requires held == Null || held in counts
    requires given == Null || given in counts
    ensures Reassigned(Reassigned(counts, held, given), given, held) == counts
  {
    var back := Reassigned(Reassigned(counts, held, given), given, held);
    assert back.Keys == counts.Keys;
    forall q | q in counts ensures back[q] == counts[q] {
      assert Count(back, q) == Count(counts, q);
    }
  }

  /** The counts the client below goes through: three retains (`p` twice,
      `q` once), then releases of `p`, `q` and `p`, then three releases of
      null, give back the counts of objects that exist. */
  lemma ClientCountsBalance(m0: map<Ptr, int>, p: Ptr, q: Ptr)
    requires p == Null || p in m0
    requires q == Null || q in m0
    ensures Released(Released(Released(Released(Released(Released(
              Retained(Retained(Retained(m0, p), p), q), p), q), p), Null), Null), Null) == m0
  {
    var m1 := Retained(m0, p);
    RetainedCommute(m1, p, q);
    RetainReleaseCancel(Retained(m1, q), p);
    RetainReleaseCancel(m1, q);
    RetainReleaseCancel(m0, p);
  }

  /** A client: a raw pointer wrapped, copied, moved and swapped, with every
      handle reset or destroyed at the end, leaves every count as it was. */
  method OwnershipBalances(manager: Manager, p: Ptr, q: Ptr)
    requires p == Null || p in manager.counts
    requires q == Null || q in manager.counts
    modifies manager
    ensures manager.counts == old(manager.counts)
  {
    var a := new IntrusivePtr.FromRaw(manager, p);
    var b := new IntrusivePtr.Copy(a);
    var c := new IntrusivePtr.Move(b);
    var d := new IntrusivePtr.FromRaw(manager, q);
    d.Swap(c);
    a.Reset();
    c.AssignNull();
    d.Dispose();
    a.Dispose();
    b.Dispose();
    c.Dispose();
    ClientCountsBalance(old(manager.counts), p, q);
  }
}
