/** `GC`: the autorelease pool that destroys objects whose reference count
    has fallen to zero or below, at the next flush after a release.

    The objects that exist, with their reference counts (`Ref::refCount`),
    are a `Heap`; `delete` removes an object from it. What an object's
    destructor does besides is not modelled. */
module Collector {
  import opened Refs

  /** The live objects and their reference counts. */
  class Heap {
    var counts: map<Ptr, int>

    constructor (counts: map<Ptr, int>)
      ensures this.counts == counts
    {
      this.counts := counts;
    }
  }

  /** The pool members a flush destroys: those whose count is zero or below. */
  function Doomed(pool: set<Ptr>, counts: map<Ptr, int>): set<Ptr> {
    set r | r in pool && Count(counts, r) <= 0
  }

  /** The side effects that the three clear hooks (clearing all scenes, all
      timer tasks and all actions) have on this pool: the releases they
      request, in order. */
  datatype HookEffects = HookEffects(scenes: seq<Ptr>, timers: seq<Ptr>, actions: seq<Ptr>)

  class GC {
    const heap: Heap
    var pool: set<Ptr>
    var notified: bool
    var cleanup: bool

    /** Every pool member is a live, non-null object. */
    ghost predicate Valid()
      reads this, heap
    {
      Null !in pool && pool <= heap.counts.Keys
    }

    /** `GC()`: an empty pool, no pending release, not cleaning up. */
    constructor (heap: Heap)
      ensures Valid()
      ensures this.heap == heap && pool == {} && !notified && !cleanup
    {
      this.heap := heap;
      pool := {};
      notified := false;
      cleanup := false;
    }

    /** `autorelease(ref)`: puts a non-null object into the pool (a set, so
        twice is the same as once); null is ignored. */
    method Autorelease(ref: Ptr)
      requires Valid()
      requires ref == Null || ref in heap.counts
      modifies this
      ensures Valid()
      ensures pool == if ref == Null then old(pool) else old(pool) + {ref}
      ensures notified == old(notified) && cleanup == old(cleanup)
    {
      if ref != Null {
        pool := pool + {ref};
      }
    }

    /** `operator new(size, autorelease)`: `block` is what the non-throwing
        allocator returned, `Null` when it failed. A new object (whose count
        starts at 0) joins the pool only when the allocation succeeded. */
    method AutoreleaseNew(block: Ptr) returns (p: Ptr)
      requires Valid()
      requires block == Null || block !in heap.counts
      modifies this, heap
      ensures Valid()
      ensures p == block
      ensures heap.counts == if block == Null then old(heap.counts) else old(heap.counts)[block := 0]
      ensures pool == if block == Null then old(pool) else old(pool) + {block}
      ensures notified == old(notified) && cleanup == old(cleanup)
    {
      p := block;
      if p != Null {
        heap.counts := heap.counts[p := 0];
        Autorelease(p);
      }
    }

    /** `safeRelease(ref)`: while cleaning up, nothing; otherwise a non-null
        object loses one reference and the next flush is armed. */
    method SafeRelease(ref: Ptr)
      requires Valid()
      requires ref == Null || ref in heap.counts
      modifies this, heap
      ensures Valid()
      ensures pool == old(pool) && cleanup == old(cleanup)
      ensures if old(cleanup) || ref == Null
              then heap.counts == old(heap.counts) && notified == old(notified)
              else heap.counts == Released(old(heap.counts), ref) && notified
    {
      if cleanup {
        return;
      }
      if ref != Null {
        heap.counts := Released(heap.counts, ref);
        notified := true;
      }
    }

    /** `flush()`: unless a release was signalled, nothing. Otherwise it
        clears the signal and destroys, and removes from the pool, exactly
        the members whose count is zero or below. */
    method Flush()
      requires Valid()
      modifies this, heap
      ensures Valid()
      ensures !notified && cleanup == old(cleanup)
      ensures var gone := if old(notified) then Doomed(old(pool), old(heap.counts)) else {};
              pool == old(pool) - gone && heap.counts == old(heap.counts) - gone
    {
      if !notified {
        return;
      }
      notified := false;
      ghost var gone := Doomed(pool, heap.counts);
      var rest := pool;
      while rest != {}
        invariant rest <= old(pool)
        invariant pool == old(pool) - (gone - rest)
        invariant heap.counts == old(heap.counts) - (gone - rest)
        invariant !notified && cleanup == old(cleanup)
        decreases rest
      {
        var r :| r in rest;
        if heap.counts[r] <= 0 {
          heap.counts := heap.counts - {r};
          pool := pool - {r};
        }
        rest := rest - {r};
      }
    }

    /** `clear()`: with the cleanup flag up, runs the three clear hooks
        (whose releases are therefore ignored), destroys every pooled object
        whatever its count, empties the pool and lowers the flag. */
    method Clear(hooks: HookEffects)
      requires Valid()
      requires Mentioned(hooks.scenes + hooks.timers + hooks.actions) <= heap.counts.Keys
      modifies this, heap
      ensures Valid()
      ensures pool == {} && !cleanup && notified == old(notified)
      ensures heap.counts == old(heap.counts) - old(pool)
    {
      cleanup := true;
      var releases := hooks.scenes + hooks.timers + hooks.actions;
      var i := 0;
      while i < |releases|
        invariant 0 <= i <= |releases|
        invariant Valid() && cleanup
        invariant pool == old(pool) && heap.counts == old(heap.counts) && notified == old(notified)
      {
        assert releases[i] in releases;
        SafeRelease(releases[i]);
        i := i + 1;
      }
      var rest := pool;
      while rest != {}
        invariant rest <= old(pool)
        invariant pool == old(pool) && cleanup && notified == old(notified)
        invariant heap.counts == old(heap.counts) - (old(pool) - rest)
        decreases rest
      {
        var r :| r in rest;
        heap.counts := heap.counts - {r};
        rest := rest - {r};
      }
      pool := {};
      cleanup := false;
    }
  }

  /** After a flush no surviving pool member has a count of zero or below,
      no object with a positive count is destroyed, and objects outside the
      pool are never destroyed. */
  lemma FlushSafety(pool: set<Ptr>, counts: map<Ptr, int>)
    requires pool <= counts.Keys
    ensures forall r :: r in pool - Doomed(pool, counts) ==> counts[r] > 0
    ensures forall r :: r in counts && (counts[r] > 0 || r !in pool) ==> r in counts - Doomed(pool, counts)
  {
  }

  /** A second flush right after a first one destroys nothing more. */
  lemma FlushIdempotent(pool: set<Ptr>, counts: map<Ptr, int>)
    requires pool <= counts.Keys
    ensures Doomed(pool - Doomed(pool, counts), counts - Doomed(pool, counts)) == {}
  {
  }

  /** A client: an object with count 1 released and flushed is destroyed; an
      object with count 2 released once and flushed survives. */
  method ReleaseThenFlush(gc: GC, o: Ptr, count: int)
    requires gc.Valid() && !gc.cleanup
    requires o in gc.pool && count >= 1
    requires gc.heap.counts[o] == count
    modifies gc, gc.heap
    ensures count == 1 ==> o !in gc.pool && o !in gc.heap.counts
    ensures count == 2 ==> o in gc.pool && o in gc.heap.counts && gc.heap.counts[o] == 1
  {
    gc.SafeRelease(o);
    gc.Flush();
  }
}
