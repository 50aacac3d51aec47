/** Intrusive reference counts, shared by the handle and the deferred pool.

    An object is named by its raw address; address 0 is the null pointer.
    A count map gives the reference count of every object that exists;
    retaining and releasing change one count and ignore null. */
module Refs {

  /** A raw object address; `Null` is the null pointer. */
  type Ptr = nat

  const Null: Ptr := 0

  /** The reference count of `p`; an address without an entry reads as 0. */
  function Count(counts: map<Ptr, int>, p: Ptr): int {
    if p in counts then counts[p] else 0
  }

  /** `retain()` / `AddRef`: one more reference to a non-null object. */
  function Retained(counts: map<Ptr, int>, p: Ptr): (r: map<Ptr, int>)
    ensures forall q :: Count(r, q) == Count(counts, q) + (if q == p && p != Null then 1 else 0)
    ensures r.Keys == if p == Null then counts.Keys else counts.Keys + {p}
  {
    if p == Null then counts else counts[p := Count(counts, p) + 1]
  }

  /** `release()` / `Release`: one reference fewer to a non-null object.
      The count may drop to zero or below; nothing is destroyed here. */
  function Released(counts: map<Ptr, int>, p: Ptr): (r: map<Ptr, int>)
    ensures forall q :: Count(r, q) == Count(counts, q) - (if q == p && p != Null then 1 else 0)
    ensures r.Keys == if p == Null then counts.Keys else counts.Keys + {p}
  {
    if p == Null then counts else counts[p := Count(counts, p) - 1]
  }

  /** A release undoes a retain of an existing object. */
  lemma RetainReleaseCancel(counts: map<Ptr, int>, p: Ptr)
    requires p == Null || p in counts
    ensures Released(Retained(counts, p), p) == counts
  {
  }

  /** Retains commute. */
  lemma RetainedCommute(counts: map<Ptr, int>, p: Ptr, q: Ptr)
    ensures Retained(Retained(counts, p), q) == Retained(Retained(counts, q), p)
  {
  }

  /** Retains every pointer of `ps`, first to last. */
  function RetainAll(counts: map<Ptr, int>, ps: seq<Ptr>): map<Ptr, int>
    decreases |ps|
  {
    if ps == [] then counts else RetainAll(Retained(counts, ps[0]), ps[1..])
  }

  /** Releases every pointer of `ps`, first to last. */
  function ReleaseAll(counts: map<Ptr, int>, ps: seq<Ptr>): map<Ptr, int>
    decreases |ps|
  {
    if ps == [] then counts else ReleaseAll(Released(counts, ps[0]), ps[1..])
  }

  /** The non-null pointers that occur in `ps`. */
  function Mentioned(ps: seq<Ptr>): set<Ptr> {
    set p | p in ps && p != Null
  }

  /** After a run of retains, each object's count has grown by the number of
      times it was retained, and only the retained objects gained an entry. */
  lemma {:induction false} RetainAllCounts(counts: map<Ptr, int>, ps: seq<Ptr>, q: Ptr)
    ensures Count(RetainAll(counts, ps), q) == Count(counts, q) + (if q == Null then 0 else multiset(ps)[q])
    ensures RetainAll(counts, ps).Keys == counts.Keys + Mentioned(ps)
    decreases |ps|
  {
    if ps != [] {
      RetainAllCounts(Retained(counts, ps[0]), ps[1..], q);
      assert ps == [ps[0]] + ps[1..];
      assert multiset(ps) == multiset{ps[0]} + multiset(ps[1..]);
      assert Mentioned(ps) == Mentioned([ps[0]]) + Mentioned(ps[1..]);
    }
  }

  /** After a run of releases, each object's count has shrunk by the number of
      times it was released, and only the released objects gained an entry. */
  lemma {:induction false} ReleaseAllCounts(counts: map<Ptr, int>, ps: seq<Ptr>, q: Ptr)
    ensures Count(ReleaseAll(counts, ps), q) == Count(counts, q) - (if q == Null then 0 else multiset(ps)[q])
    ensures ReleaseAll(counts, ps).Keys == counts.Keys + Mentioned(ps)
    decreases |ps|
  {
    if ps != [] {
      ReleaseAllCounts(Released(counts, ps[0]), ps[1..], q);
      assert ps == [ps[0]] + ps[1..];
      assert multiset(ps) == multiset{ps[0]} + multiset(ps[1..]);
      assert Mentioned(ps) == Mentioned([ps[0]]) + Mentioned(ps[1..]);
    }
  }

  /** N retains followed by the same N releases, in any order, give back
      exactly the counts one started from. */
  lemma Balanced(counts: map<Ptr, int>, retains: seq<Ptr>, releases: seq<Ptr>)
    requires multiset(retains) == multiset(releases)
    requires Mentioned(retains) <= counts.Keys
    ensures ReleaseAll(RetainAll(counts, retains), releases) == counts
  {
    var mid := RetainAll(counts, retains);
    var after := ReleaseAll(mid, releases);
    RetainAllCounts(counts, retains, Null);
    ReleaseAllCounts(mid, releases, Null);
    assert Mentioned(releases) == Mentioned(retains) by {
      forall p ensures p in Mentioned(releases) <==> p in Mentioned(retains) {
        assert p in releases <==> multiset(releases)[p] > 0;
        assert p in retains <==> multiset(retains)[p] > 0;
      }
    }
    forall q | q in counts
      ensures after[q] == counts[q]
    {
      RetainAllCounts(counts, retains, q);
      ReleaseAllCounts(mid, releases, q);
    }
  }
}
