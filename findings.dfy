/**
 * Two places where `Model.fromOBJ` as written departs from what it evidently
 * means to do. Each is modelled as written, with the input that shows the
 * difference; the rest of the model uses the corrected behaviour.
 */
module ObjFindings {
  import opened Wrappers
  import opened ObjSpec
  import ObjProperties

  const Two32: int := 0x1_0000_0000

  /** A value of Kotlin's 32-bit `Int`. */
  predicate IsInt32(x: int) {
    -0x8000_0000 <= x < 0x8000_0000
  }

  /** Kotlin `Int` arithmetic: the exact result wrapped into the 32-bit range. */
  function Wrap32(x: int): (r: int)
    ensures IsInt32(r)
    ensures (r - x) % Two32 == 0
    ensures IsInt32(x) ==> r == x
  {
    var m := x % Two32;
    if m < 0x8000_0000 then m else m - Two32
  }

  // ---------------------------------------------------------------------
  // Finding 1: the record index is computed in 32-bit arithmetic
  // ---------------------------------------------------------------------

  /** One record read as written: the field `n` (an `Int`, 1-based) becomes
      `width * (n - 1)` with both operations wrapping, and then `width`
      consecutive reads start there, each of which must be inside the pool. */
  function WrittenFetch(pool: seq<real>, n: int, width: nat): Option<seq<real>>
    requires IsInt32(n) && width <= 3
  {
    var index := Wrap32(width * Wrap32(n - 1));
    if 0 <= index && index + width <= |pool| then Some(pool[index .. index + width]) else None
  }

  /** Field 1431655767 names vertex record 1431655766, far past a pool of
      two vertices, but 3 * 1431655766 wraps to 2: the source reads the
      floats at 2, 3 and 4 (the z of the first vertex and the x, y of the
      second) where the checked read reports the record missing. */
  lemma WrappedIndexReadsMisaligned(pool: seq<real>)
    requires |pool| == 6
    ensures WrittenFetch(pool, 1431655767, 3) == Some(pool[2..5])
    ensures Fetch(pool, 1431655767 - 1, 3) == None
  {
    assert Wrap32(1431655767 - 1) == 1431655766;
    assert 3 * 1431655766 == Two32 + 2;
    assert Wrap32(3 * 1431655766) == 2;
  }

  /** Whenever no intermediate value leaves the `Int` range, the read as
      written is exactly the checked read of record n - 1. */
  lemma WrittenFetchAgrees(pool: seq<real>, n: int, width: nat)
    requires IsInt32(n) && 1 <= width <= 3
    requires IsInt32(n - 1) && IsInt32(width * (n - 1))
    ensures WrittenFetch(pool, n, width) == Fetch(pool, n - 1, width)
  {
    assert Wrap32(n - 1) == n - 1;
    assert Wrap32(width * (n - 1)) == width * (n - 1);
    assert width == 1 || width == 2 || width == 3;
  }

  // ---------------------------------------------------------------------
  // Finding 2: the size checks compare the wrong quantities
  // ---------------------------------------------------------------------

  /** The five `assert`s of `Model.fromOBJ` and the `Model` constructor as
      written, on the arrays expanded from `f` references: positions must
      match normals and also textures, and each counter must reach its
      array's size, where `pi` advances 3 per reference, `ni` 2 (it counts
      the texture writes but is compared with normals) and `ti` 3 (it
      counts the normal writes but is compared with textures). */
  predicate WrittenChecks(m: Mesh, f: nat) {
    && |m.positions| == |m.normals| && |m.positions| == |m.textures|
    && 3 * f == |m.positions| && 2 * f == |m.normals| && 3 * f == |m.textures|
  }

  /** As written the checks hold for an expanded mesh exactly when it has
      no vertex at all, so with assertions enabled every non-empty model
      would be rejected. */
  lemma SizeChecksRejectEveryMesh(refs: seq<string>, p: Pools, conv: Conversions)
    requires ExpandAll(refs, p, conv).Ok?
    ensures WrittenChecks(ExpandAll(refs, p, conv).value, |refs|) <==> |refs| == 0
  {
    ObjProperties.ExpandLengths(refs, p, conv);
  }
}
