# Easy2D core: ownership, deferred collection, actions and geometry in Dafny

This project models three parts of the Easy2D game engine and proves
properties of them over unbounded integers and reals.

- **Ownership and deferred collection.**
  - `IntrusivePtr` is a handle that retains the object it points to and
    releases it when it is dropped.
  - `GC` is the autorelease pool. A `flush` destroys exactly the pooled
    objects whose count has fallen to zero or below, and only after a release
    was signalled. `clear` destroys everything in the pool.
  - Reference counts are one count map, `map<Ptr, int>`, keyed by raw
    address. Address 0 is null. `Retained` and `Released` ignore null.
- **Time-based actions.**
  - `MoveBy` follows external drift of its target.
  - `ScaleBy` sets a linear per-axis scale.
  - `EActionLoop` owns and restarts a child action.
  - The progress `_delta` is an input. The target node keeps only its
    position and scale.
- **Geometry.**
  - `e2d::Rect`: equality, `intersects` and `containsPoint`.
  - `easy2d::math::Matrix`: the 3x2 affine matrix with its expression-template
    multiply. A matrix value is a datatype. The members that change a matrix
    in place (`Identity`, `Translate`, the element-copying constructors and
    `operator=`) work on `MatrixStorage`, whose six elements are an `array`,
    like the source's union `m[6]`.

Each file holds the module of one source file and imports only what it
uses. There are two exceptions. refs.dfy holds the reference counts that
both handles rely on. vectors.dfy holds two small modules for points and
the target node:

| file | module | source |
|---|---|---|
| refs.dfy | `Refs` | the `_Manager` AddRef/Release and `Ref` counts both handles rely on |
| intrusive_ptr.dfy | `IntrusivePtrs` | Easy2D/common/IntrusivePtr.hpp |
| gc.dfy | `Collector` | core/Base/GC.cpp |
| vectors.dfy | `Vectors`, `Nodes` | points and the target node |
| move_by.dfy | `MoveByAction` | core/Action/MoveBy.cpp |
| scale_by.dfy | `ScaleByAction` | core/Action/ScaleBy.cpp |
| action_loop.dfy | `ActionLoop` | Easy2D/Action/EActionLoop.cpp |
| rect.dfy | `Rects` | core/Common/Rect.cpp |
| matrix.dfy | `Matrices` | Easy2D/math/Matrix.hpp |

`GC::autorelease` adds an object with `_pool.insert(ref)`
(core/Base/GC.cpp:88). The declaration of `_pool` is not part of this
model. The pool is taken to be a set, so adding an object twice is the same
as adding it once.

## Model

| member | source | states |
|---|---|---|
| Refs.Retained | Easy2D/common/IntrusivePtr.hpp:50-53 | a retain adds exactly one to the count of a non-null object and changes no other count; null changes nothing |
| Refs.Released | Easy2D/common/IntrusivePtr.hpp:74-77 | a release takes exactly one from the count of a non-null object, which may go to zero or below, and changes no other count; null changes nothing |
| Refs.RetainReleaseCancel | Easy2D/common/IntrusivePtr.hpp:74-77 | a release undoes a retain of an object that exists, or of null |
| Refs.RetainAllCounts | Easy2D/common/IntrusivePtr.hpp:50-66 | after a run of retains, each count has grown by the number of times that object was retained |
| Refs.ReleaseAllCounts | Easy2D/common/IntrusivePtr.hpp:74-77 | after a run of releases, each count has shrunk by the number of times that object was released |
| Refs.Balanced | Easy2D/common/IntrusivePtr.hpp:50-77 | N retains followed by the same N releases, in any order, give back exactly the starting counts |
| IntrusivePtrs.Manager.AddRef | Easy2D/common/IntrusivePtr.hpp:52 | the manager's counts become `Retained` of the old ones |
| IntrusivePtrs.Manager.Release | Easy2D/common/IntrusivePtr.hpp:76 | the manager's counts become `Released` of the old ones, null included |
| IntrusivePtrs.Reassigned | Easy2D/common/IntrusivePtr.hpp:113-118 | re-pointing changes nothing when the pointers are equal; otherwise the new object gains one count and the old one loses one |
| IntrusivePtrs.IntrusivePtr.Empty | Easy2D/common/IntrusivePtr.hpp:46-48 | a default or nullptr handle holds null and changes no count |
| IntrusivePtrs.IntrusivePtr.FromRaw | Easy2D/common/IntrusivePtr.hpp:50-53 | a handle from a raw pointer holds it and retains it once |
| IntrusivePtrs.IntrusivePtr.Copy | Easy2D/common/IntrusivePtr.hpp:55-66 | a copy, converting ones included, shares the pointer and retains it once |
| IntrusivePtrs.IntrusivePtr.Move | Easy2D/common/IntrusivePtr.hpp:68-72 | a move takes the pointer, leaves the source null and changes no count |
| IntrusivePtrs.IntrusivePtr.Dispose | Easy2D/common/IntrusivePtr.hpp:74-77 | destroying a handle releases exactly the object it holds, once |
| IntrusivePtrs.IntrusivePtr.Deref | Easy2D/common/IntrusivePtr.hpp:91-101 | `->` and `*` require a non-null pointer and give the held object |
| IntrusivePtrs.IntrusivePtr.Swap | Easy2D/common/IntrusivePtr.hpp:86-89 | the two pointers are exchanged and no count changes |
| IntrusivePtrs.IntrusivePtr.Reset | Easy2D/common/IntrusivePtr.hpp:81-84 | the handle becomes null and the old object is released once (null ignored) |
| IntrusivePtrs.IntrusivePtr.AssignCopy | Easy2D/common/IntrusivePtr.hpp:113-118 | the handle takes the other's pointer; the counts change by `Reassigned`, so equal pointers change nothing |
| IntrusivePtrs.IntrusivePtr.AssignMove | Easy2D/common/IntrusivePtr.hpp:120-126 | the old object is released once, the source's pointer is taken without a retain and the source is nulled; moving into itself leaves null |
| IntrusivePtrs.IntrusivePtr.AssignRaw | Easy2D/common/IntrusivePtr.hpp:128-133 | the handle takes the raw pointer; the counts change by `Reassigned` |
| IntrusivePtrs.IntrusivePtr.AssignNull | Easy2D/common/IntrusivePtr.hpp:135-140 | the handle becomes null and a non-null old object is released once |
| IntrusivePtrs.IntrusivePtr.Get | Easy2D/common/IntrusivePtr.hpp:79 | `Get()`: the raw pointer the handle holds |
| IntrusivePtrs.IntrusivePtr.IsSet | Easy2D/common/IntrusivePtr.hpp:109 | `operator bool`: the pointer is not null; `ComparisonLaws` ties it to `!= nullptr` |
| IntrusivePtrs.IntrusivePtr.IsNot | Easy2D/common/IntrusivePtr.hpp:111 | `operator!`: the pointer is null; `ComparisonLaws` ties it to `== nullptr` |
| IntrusivePtrs.SwapHandles | Easy2D/common/IntrusivePtr.hpp:211-215 | the free `swap(lhs, rhs)` calls `lhs.Swap(rhs)`: the two pointers are exchanged and no count changes |
| IntrusivePtrs.Equal | Easy2D/common/IntrusivePtr.hpp:143-147 | `==` on two handles compares their raw pointers |
| IntrusivePtrs.NotEqual | Easy2D/common/IntrusivePtr.hpp:149-153 | `!=` on two handles; `ComparisonLaws` proves it negates `==` |
| IntrusivePtrs.Less | Easy2D/common/IntrusivePtr.hpp:155-159 | `<` on two handles; `ComparisonLaws` proves it a strict total order |
| IntrusivePtrs.EqualRaw | Easy2D/common/IntrusivePtr.hpp:161-177 | `==` between a handle and a raw pointer, in either order |
| IntrusivePtrs.NotEqualRaw | Easy2D/common/IntrusivePtr.hpp:167-183 | `!=` between a handle and a raw pointer, in either order |
| IntrusivePtrs.EqualNull | Easy2D/common/IntrusivePtr.hpp:185-201 | `== nullptr`, in either order; `ComparisonLaws` proves it is `!` |
| IntrusivePtrs.NotEqualNull | Easy2D/common/IntrusivePtr.hpp:191-207 | `!= nullptr`, in either order; `ComparisonLaws` proves it is `bool` |
| IntrusivePtrs.ComparisonLaws | Easy2D/common/IntrusivePtr.hpp:143-207 | `!=` negates `==`; `==` compares raw pointers; comparing with nullptr is `!`/`bool`; `<` is a strict total order on the pointers |
| IntrusivePtrs.ReassignedUndone | Easy2D/common/IntrusivePtr.hpp:113-133 | pointing a handle at another object and back restores every count |
| IntrusivePtrs.OwnershipBalances | Easy2D/common/IntrusivePtr.hpp:46-140 | wrapping, copying, moving and swapping handles and then resetting or destroying all of them leaves every count as it was |
| Collector.GC.constructor | core/Base/GC.cpp:25-30 | a new pool is empty, not notified and not cleaning up |
| Collector.GC.Autorelease | core/Base/GC.cpp:84-90 | a non-null object is added to the pool with set semantics; null is ignored; nothing else changes |
| Collector.GC.AutoreleaseNew | core/Base/GC.cpp:9-17 | the new object joins the pool only when the allocation succeeded |
| Collector.GC.SafeRelease | core/Base/GC.cpp:92-102 | a no-op while cleaning up or for null; otherwise one count fewer for that object and the pool is notified |
| Collector.GC.Flush | core/Base/GC.cpp:42-60 | without notification nothing changes; otherwise the flag is cleared, and exactly the pool members with count zero or below are destroyed and removed |
| Collector.GC.Clear | core/Base/GC.cpp:62-76 | the hook releases are ignored, every pooled object is destroyed whatever its count, the pool is left empty and `_cleanup` ends false |
| Collector.FlushSafety | core/Base/GC.cpp:47-59 | after a flush every survivor has a positive count, and no object with a positive count or outside the pool is destroyed |
| Collector.FlushIdempotent | core/Base/GC.cpp:42-60 | a second flush right after a first one destroys nothing |
| Collector.ReleaseThenFlush | core/Base/GC.cpp:42-102 | an object with count 1 released and flushed is destroyed; one with count 2 survives with count 1 |
| MoveByAction.Updated | core/Action/MoveBy.cpp:21-36 | the start moves by the drift since the last write, and the target is put at start plus delta times progress, which becomes the last written position |
| MoveByAction.NoDriftKeepsStart | core/Action/MoveBy.cpp:27-31 | with no drift the start stays put and the target lands at the start plus delta times progress |
| MoveByAction.DriftShiftsPosition | core/Action/MoveBy.cpp:27-31 | an external displacement d between updates shifts the written position by exactly d |
| MoveByAction.RunFollowsDrift | core/Action/MoveBy.cpp:21-36 | over any run of frames the start moves by the total drift, and the target ends at that start plus delta times the last progress |
| MoveByAction.ReverseUndoes | core/Action/MoveBy.cpp:11-46 | an update at progress 1 from `_init` at p, then an update at progress 1 of the negated vector from `_init` at the point reached, puts the target back at p |
| MoveByAction.ReverseRunUndoes | core/Action/MoveBy.cpp:11-46 | a clone of the action run to completion on a node, then its `reverse()` run to completion on that node, leaves the node's position and scale as they were |
| MoveByAction.ReverseInvolution | core/Action/MoveBy.cpp:43-46 | reversing twice gives back the original vector |
| MoveByAction.MoveBy.constructor | core/Action/MoveBy.cpp:5-9 | the action keeps the duration and vector and is unbound |
| MoveByAction.MoveBy.Bind | core/Action/MoveBy.cpp:15-17 | binds the `_target` that `_init` and `_update` read; the binding itself is done by the action base class |
| MoveByAction.MoveBy.Init | core/Action/MoveBy.cpp:11-19 | with a target, both start and last written position become its position; without one, nothing changes |
| MoveByAction.MoveBy.Update | core/Action/MoveBy.cpp:21-36 | with a target the new state is `Updated` of the old one and the scale is untouched; without one, nothing changes |
| MoveByAction.MoveBy.Clone | core/Action/MoveBy.cpp:38-41 | a new unbound action with the same duration and vector |
| MoveByAction.MoveBy.Reverse | core/Action/MoveBy.cpp:43-46 | a new unbound action with the same duration and the negated vector |
| MoveByAction.ClonesRunIndependently | core/Action/MoveBy.cpp:11-41 | two clones bound to two nodes each move only their own node, from that node's own position |
| ScaleByAction.ScaleAt | core/Action/ScaleBy.cpp:30-38 | the scale moves from the start by amount times progress: the start at 0, start plus amount at 1 |
| ScaleByAction.ReverseUndoes | core/Action/ScaleBy.cpp:45-48 | the reverse run to completion after the action gives back the start scale |
| ScaleByAction.ScaleIsAffine | core/Action/ScaleBy.cpp:30-38 | equal steps of progress give equal steps of scale |
| ScaleByAction.ScaleBy.Uniform | core/Action/ScaleBy.cpp:5-10 | the one-amount constructor uses it on both axes |
| ScaleByAction.ScaleBy.constructor | core/Action/ScaleBy.cpp:12-17 | the two-amount constructor keeps them per axis |
| ScaleByAction.ScaleBy.Bind | core/Action/ScaleBy.cpp:23-26 | binds the `_target` that `_init` and `_update` read; the binding itself is done by the action base class |
| ScaleByAction.ScaleBy.Init | core/Action/ScaleBy.cpp:19-28 | with a target its current scales become the start; without one, nothing changes |
| ScaleByAction.ScaleBy.Update | core/Action/ScaleBy.cpp:30-38 | with a target its scale becomes `ScaleAt` of the start per axis and its position is untouched |
| ScaleByAction.ScaleBy.Clone | core/Action/ScaleBy.cpp:40-43 | a new unbound action with the same duration and amounts |
| ScaleByAction.ScaleBy.Reverse | core/Action/ScaleBy.cpp:45-48 | a new unbound action with both amounts negated; negating again gives the originals |
| ScaleByAction.UpdateIgnoresCurrentScale | core/Action/ScaleBy.cpp:30-38 | the update reads only the captured start, so a scale changed in between does not affect it |
| ActionLoop.EActionLoop.constructor | Easy2D/Action/EActionLoop.cpp:3-7 | the loop wraps the child and retains it once; the child's target, initialised flag and ending flag are untouched |
| ActionLoop.EActionLoop.Dispose | Easy2D/Action/EActionLoop.cpp:9-12 | a held child is released once and the reference cleared; nothing else about the child changes |
| ActionLoop.EActionLoop.Clone | Easy2D/Action/EActionLoop.cpp:14-17 | a new loop around a fresh clone of the child, never the child itself, holding the clone's only reference |
| ActionLoop.EActionLoop.Init | Easy2D/Action/EActionLoop.cpp:19-27 | the child gets the loop's target only if it has none and the loop has one, then it is initialised |
| ActionLoop.EActionLoop.CallOn | Easy2D/Action/EActionLoop.cpp:29-37 | the child is stepped and reset if that ended it, so it is never left ending |
| ActionLoop.EActionLoop.Reset | Easy2D/Action/EActionLoop.cpp:39-42 | only the loop's own state is reset; the child is not touched |
| ActionLoop.LoopOwnsChild | Easy2D/Action/EActionLoop.cpp:3-37 | a loop created, stepped any number of times and destroyed leaves the child's count as before, and a stepped child is not ending |
| Rects.EmptyRect | core/Common/Rect.cpp:3-7 | the default rect: origin and size zero (related to the others by `EqualsIsFieldEquality`) |
| Rects.RectAt | core/Common/Rect.cpp:9-13 | the rect with origin (x, y) and the given width and height |
| Rects.RectOf | core/Common/Rect.cpp:15-32 | the rect from a point and a size; copying and assigning give the same value |
| Rects.Equals | core/Common/Rect.cpp:34-37 | `==`: both origins equal and both sizes equal; `EqualsIsFieldEquality` proves it is value equality |
| Rects.ContainsPoint | core/Common/Rect.cpp:39-47 | `containsPoint` as written; `ContainsPointBounds` and `ContainsPointTypo` state what it accepts |
| Rects.ContainsPointIntended | core/Common/Rect.cpp:39-47 | the intended closed box; `ContainsIntendedIsPointIntersection` ties it to `intersects` |
| Rects.Intersects | core/Common/Rect.cpp:49-55 | `intersects`; `IntersectsIffOverlap` proves it means overlapping closed extents |
| Rects.EqualsIsFieldEquality | core/Common/Rect.cpp:3-37 | `==` holds exactly when origin and size are equal; the constructors agree and a copy equals its original |
| Rects.IntersectsIffOverlap | core/Common/Rect.cpp:49-55 | for rects of non-negative size, `intersects` holds exactly when the closed extents overlap on both axes |
| Rects.IntersectsSymmetric | core/Common/Rect.cpp:49-55 | `intersects` is symmetric |
| Rects.TouchingIntersects | core/Common/Rect.cpp:49-55 | rects of non-negative size that only touch intersect: side by side with overlapping vertical extents, or stacked with overlapping horizontal extents |
| Rects.SelfIntersects | core/Common/Rect.cpp:49-55 | a rect intersects itself exactly when its size is non-negative |
| Rects.ContainsPointBounds | core/Common/Rect.cpp:39-47 | a contained point lies within the vertical extent, and its x lies between the left edge and the bottom edge |
| Rects.ContainsPointTypo | core/Common/Rect.cpp:39-47 | the rect at (10, 0) of size 5 x 5 contains (12.5, 2.5) as intended but not as written |
| Rects.ContainsPointAgreesWhenEdgesCoincide | core/Common/Rect.cpp:39-47 | the written and intended readings agree on every rect whose right edge equals its bottom edge, where the typo cannot matter |
| Rects.ContainsIntendedIsPointIntersection | core/Common/Rect.cpp:39-47 | the intended containment is intersection with the zero-size rect at the point |
| Matrices.Matrix.At | Easy2D/math/Matrix.hpp:116-119 | `operator[]`: element `index` of the union `m[6]`, for an index below 6 (`FromSeq` ties it to the six fields) |
| Matrices.Default | Easy2D/math/Matrix.hpp:48-53 | the default matrix (1, 0, 0, 1, 0, 0); `DefaultIsIdentity` and `MultiplyUnit` state what it is |
| Matrices.Transform | Easy2D/math/Matrix.hpp:87-93 | the image of a point; `TransformTranslation`, `TransformMultiply` and `ScalingFixesCentre` state its laws |
| Matrices.Determinant | Easy2D/math/Matrix.hpp:129-132 | `_11 * _22 - _12 * _21`; `DeterminantMultiplies` proves it multiplies over `*` |
| Matrices.IsIdentity | Easy2D/math/Matrix.hpp:134-139 | all six elements are those of the identity; `DefaultIsIdentity` proves only the default matrix passes |
| Matrices.IsInvertible | Easy2D/math/Matrix.hpp:141-144 | a non-zero determinant; `InvertIsInverse` proves it holds exactly when an inverse exists |
| Matrices.Translation | Easy2D/math/Matrix.hpp:146-160 | the translation by v; `TransformTranslation` proves it adds v |
| Matrices.Scaling | Easy2D/math/Matrix.hpp:162-180 | the scaling about a centre; `ScalingFixesCentre` proves it fixes the centre |
| Matrices.Invert | Easy2D/math/Matrix.hpp:210-222 | the inverse for a non-zero determinant; `InvertIsLeftInverse` and `InvertIsRightInverse` prove it |
| Matrices.Multiply | Easy2D/math/Matrix.hpp:238-269 | `operator*` taken to its value: element i is `ProductAt(lhs, rhs, i)`; `MultiplyAssociative`, `MultiplyUnit` and `TransformMultiply` state its laws |
| Matrices.IdentityAsWritten | Easy2D/math/Matrix.hpp:80-85 | `Identity()` as written on a matrix value; `IdentityAsWrittenIsNotIdentity` shows the typo |
| Matrices.AssignLoop | Easy2D/math/Matrix.hpp:121-127 | the first n steps of the element loop of `operator=` with each operand possibly the destination; `AssignLoopUnaliased` and `AssignLoopLeftAliasedDiffers` state what it stores |
| Matrices.FromSeq | Easy2D/math/Matrix.hpp:32-46 | the fields `_11` ... `_32` are the elements `m[0]` ... `m[5]` |
| Matrices.TransformRect | Easy2D/math/Matrix.hpp:95-108 | the box has non-negative size, contains all four transformed corners, and each of its edges passes through one |
| Matrices.ProductAt | Easy2D/math/Matrix.hpp:238-257 | an element of the product is 0 for every index past 5 |
| Matrices.WithAt | Easy2D/math/Matrix.hpp:124-125 | one element write sets that element and leaves the other five |
| Matrices.DefaultIsIdentity | Easy2D/math/Matrix.hpp:134-139 | the default matrix is the identity, and the only matrix `IsIdentity` accepts |
| Matrices.IdentityAsWrittenIsNotIdentity | Easy2D/math/Matrix.hpp:80-85 | after `Identity()` as written, `IsIdentity()` is false whatever the matrix was |
| Matrices.TransformTranslation | Easy2D/math/Matrix.hpp:146-160 | transforming by a translation adds its vector |
| Matrices.TransformMultiply | Easy2D/math/Matrix.hpp:238-263 | transforming by `A * B` transforms by `A` and then by `B` |
| Matrices.MultiplyUnit | Easy2D/math/Matrix.hpp:238-263 | the default matrix is a two-sided unit of `*` |
| Matrices.MultiplyAssociative | Easy2D/math/Matrix.hpp:265-269 | `(a * b) * c` equals `a * (b * c)`, so the chained expression template does not depend on grouping |
| Matrices.ScalingFixesCentre | Easy2D/math/Matrix.hpp:162-180 | the centre of a scaling is a fixed point of it |
| Matrices.DeterminantMultiplies | Easy2D/math/Matrix.hpp:129-132 | the determinant of a product is the product of the determinants |
| Matrices.InvertIsLeftInverse | Easy2D/math/Matrix.hpp:210-222 | with a non-zero determinant, `Invert(M) * M` is the identity |
| Matrices.InvertIsRightInverse | Easy2D/math/Matrix.hpp:210-222 | with a non-zero determinant, `M * Invert(M)` is the identity |
| Matrices.InvertIsInverse | Easy2D/math/Matrix.hpp:141-144 | when `IsInvertible` holds, `Invert` is a two-sided inverse; when it fails, no matrix is a left inverse |
| Matrices.AssignLoopUnaliased | Easy2D/math/Matrix.hpp:121-127 | the assignment loop stores exactly the product whenever neither operand is the destination |
| Matrices.AssignLoopLeftAliasedDiffers | Easy2D/math/Matrix.hpp:121-127 | with `m` the default matrix, `m = m * b` stores 6 instead of 3 in element 1, though `m * b` is `b` |
| Matrices.MatrixStorage.constructor | Easy2D/math/Matrix.hpp:48-53 | a new matrix is the identity (1, 0, 0, 1, 0, 0) |
| Matrices.MatrixStorage.FromElements | Easy2D/math/Matrix.hpp:60-64 | the matrix holds `p[0]` ... `p[5]` |
| Matrices.MatrixStorage.FromProduct | Easy2D/math/Matrix.hpp:73-78 | a matrix built from `lhs * rhs` holds the product |
| Matrices.MatrixStorage.Identity | Easy2D/math/Matrix.hpp:80-85 | as written: `_12` ends at 1 and `_22` keeps its old value, the other elements are those of the identity |
| Matrices.MatrixStorage.SetIdentity | Easy2D/math/Matrix.hpp:80-85 | as intended: the matrix becomes the default one, and `IsIdentity` holds |
| Matrices.MatrixStorage.Translate | Easy2D/math/Matrix.hpp:110-114 | M becomes `Translation(v) * M`: the linear part is kept and `_31`, `_32` become the image of `v` |
| Matrices.MatrixStorage.Assign | Easy2D/math/Matrix.hpp:32-46 | the implicitly declared copy assignment of a `Matrix`, which copies the union `m[6]`: the six elements become the other's, also when it is the matrix itself |
| Matrices.MatrixStorage.AssignProduct | Easy2D/math/Matrix.hpp:121-127 | as written: each element is computed from what the operands hold when it is written |
| Matrices.MatrixStorage.AssignProductSafe | Easy2D/math/Matrix.hpp:121-127 | as intended: the matrix becomes the product of the operands' old values, whether or not they alias it |

## Left out

- Floating point. Every `float` is a `real`, so rounding, infinities and
  NaN are not modelled.
- Matrices.Invert: requires a non-zero determinant. With a zero determinant
  the source divides by zero in floating point and returns infinite or NaN
  entries, which reals cannot express.
- `Matrix::Rotation` and `Matrix::Skewing` (Easy2D/math/Matrix.hpp:182-208):
  they need `math::Sin`, `math::Cos` and `math::Tan`, which are not part of
  this model.
- `math::Rect` and its corner accessors `GetLeftTop`, `GetRightTop`,
  `GetLeftBottom` and `GetRightBottom`, which `Transform(rect)` uses, are
  not part of this model. `Matrices.Corners` takes the corners to be the
  origin, origin plus width, origin plus height and origin plus size.
- Matrices.Matrix.At: requires an index below 6. `operator[]` on a `Matrix`
  past index 5 reads outside `m[6]`, which is undefined behaviour.
- The matrix constructor from six values and the copy constructor build a
  `Matrix` value directly, which needs no separate member.
- `IntrusivePtr::operator&` (Easy2D/common/IntrusivePtr.hpp:103-107): it
  hands out the address of the handle's own field for a callee to write
  through, which a field of a Dafny object cannot model.
- What `_Manager::Release` and `Ref::release` do once a count reaches zero.
  Neither body is part of this model, so counts may go to zero or below and
  objects are destroyed only by the pool.
- Collector.GC.Flush: an object's destructor is assumed to release nothing.
  In the source, a destructor run during the sweep could release other
  pooled objects and notify the pool again.
- Collector.GC.Clear: the scene, timer and action clear hooks are
  represented only by the releases they request. Because `_cleanup` is set,
  those releases are ignored, which is all the pool sees of them.
- `GC::~GC`, `GC::instance` and `Image::clearCache`. There is one `GC`
  object, and the image cache is not part of this model.
- The order in which the pool set visits pooled objects. The flush loop picks
  members in any order, and its result does not depend on that order.
- The base classes `FiniteTimeAction` and `EAction`. The progress `_delta`
  is an input of `Update`. `EAction` keeps only its count, target,
  initialised flag and ending flag. Each of its methods is taken to change
  only the field its name says, as the three `ActionLoop.EActionLoop` lines
  below spell out.
- Collector.GC.AutoreleaseNew: the new object's count is taken to start at
  0, because the `Ref` constructor is not part of this model.
- ActionLoop.EActionLoop.CallOn: the bodies of the child's `_callOn` and
  `_reset` are not part of this model. They are taken to change only the
  child's ending flag, so the child's target, count and initialised flag
  are promised to be unchanged.
- ActionLoop.EActionLoop.Init: the bodies of the child's `setTarget` and
  `_init` are not part of this model. They are taken to change only the
  child's target and initialised flag, so its count and ending flag are
  promised to be unchanged.
- ActionLoop.EActionLoop.Clone: the child's `clone()` is not part of this
  model. The cloned action is taken to start at count 0, so the new loop
  holds its only reference.
- ActionLoop.EActionLoop.Dispose: `SafeReleaseAndClear`
  (Easy2D/Action/EActionLoop.cpp:11) is not part of this model. It is taken
  to release a non-null child once and set the pointer to null.
- The `autorelease` placement `new` used by `clone` and `reverse`. They
  return fresh objects, and pool membership of actions is not modelled.
- `Point::operator==` and `Size::operator==` are taken to compare both
  coordinates.

## Findings

| source | as written | input that shows it | evidently intended | confidence | as-written member | corrected member |
|---|---|---|---|---|---|---|
| core/Common/Rect.cpp:41 | the upper bound for `x` is `origin.y + size.height` | the rect at (10, 0) of size 5 x 5 and its centre (12.5, 2.5): not contained | `point.x <= origin.x + size.width` | high, not executed | Rects.ContainsPointTypo | Rects.ContainsIntendedIsPointIntersection |
| Easy2D/math/Matrix.hpp:83 | `_12 = 1.f` assigns `_12` a second time instead of `_22` | any matrix: afterwards `_12 == 1` and `IsIdentity()` is false | `_22 = 1.f` | high, not executed | Matrices.IdentityAsWrittenIsNotIdentity | Matrices.MatrixStorage.SetIdentity |
| Easy2D/math/Matrix.hpp:121-127 | `operator=` writes `m[i]` while the expression still reads this matrix through its operand reference | `m` the default matrix, `b = (2, 3, 0, 1, 0, 0)`: `m = m * b` stores 6 in element 1 instead of 3 | the product formed before any element is written | medium, not executed | Matrices.AssignLoopLeftAliasedDiffers | Matrices.MatrixStorage.AssignProductSafe |
