/**
 * The triangle list of the star model. The vertex positions come from cosines and
 * sines and are not modelled; what is modelled is which vertices each triangle uses.
 *
 * As written, the builder of scene 1 pushes 27 numbers (9 vertices) and then replaces
 * its index list by a constant that names vertex 9, which does not exist. The intended
 * star is a double pyramid over a rim of 2P vertices (outer and inner points
 * alternating, indices 0 .. 2P-1), a front apex (index 2P) and a back apex (2P+1).
 */
module StarMesh {
  import SceneModel

  /** Every index names one of the `vertexCount` vertices. */
  predicate IndicesInRange(indices: seq<nat>, vertexCount: nat)
  {
    forall j :: 0 <= j < |indices| ==> indices[j] < vertexCount
  }

  /** Numbers pushed into `positions` by pass `i` of the builder's loop: the block
      guarded by `i > 0` pushes three vertices, and the block after it three more. */
  function PassPushes(i: nat): nat { (if i > 0 then 9 else 0) + 9 }

  /** Numbers pushed by the first `n` passes of the loop. */
  function PushedBy(n: nat): nat
  {
    if n == 0 then 0 else PushedBy(n - 1) + PassPushes(n - 1)
  }

  /** The loop runs its passes for `i` = 0 and 1. */
  const AsWrittenPasses: nat := 2

  /** Numbers in `positions` once the builder's loop has finished. */
  const AsWrittenPositionCount: nat := PushedBy(AsWrittenPasses)

  /** The constant that replaces the generated index list. */
  const AsWrittenIndices: seq<nat> := [0, 1, 2, 4, 5, 6, 7, 8, 9]

  /** The index list as written names a vertex the position list does not have. */
  lemma AsWrittenIndexOutOfRange()
    ensures AsWrittenPositionCount / 3 == 9
    ensures !IndicesInRange(AsWrittenIndices, AsWrittenPositionCount / 3)
  {
    assert AsWrittenIndices[8] == 9;
  }

  function StarVertexCount(points: nat): nat { 2 * points + 2 }

  /** Front triangles `k .. rim-1`: each joins rim vertices k and k+1 (wrapping) to the front apex `rim`. */
  function FrontCap(rim: nat, k: nat): (r: seq<nat>)
    requires 0 < rim && k <= rim
    ensures |r| == 3 * (rim - k)
    ensures IndicesInRange(r, rim + 1)
    decreases rim - k
  {
    if k == rim then [] else [k, (k + 1) % rim, rim] + FrontCap(rim, k + 1)
  }

  /** Back triangles `k .. rim-1`: the same rim pairs in the opposite winding, joined to the back apex `rim + 1`. */
  function BackCap(rim: nat, k: nat): (r: seq<nat>)
    requires 0 < rim && k <= rim
    ensures |r| == 3 * (rim - k)
    ensures IndicesInRange(r, rim + 2)
    decreases rim - k
  {
    if k == rim then [] else [(k + 1) % rim, k, rim + 1] + BackCap(rim, k + 1)
  }

  /** The intended index list of a `points`-pointed star: 4P triangles over 2P + 2 vertices. */
  function StarIndices(points: nat): (r: seq<nat>)
    requires points >= 3
    ensures |r| == 12 * points
    ensures IndicesInRange(r, StarVertexCount(points))
  {
    FrontCap(2 * points, 0) + BackCap(2 * points, 0)
  }

  lemma {:induction false} FrontCapAt(rim: nat, k: nat, t: nat)
    requires 0 < rim && k + t < rim
    ensures FrontCap(rim, k)[3 * t .. 3 * t + 3] == [k + t, (k + t + 1) % rim, rim]
    decreases t
  {
    if t > 0 {
      FrontCapAt(rim, k + 1, t - 1);
      assert FrontCap(rim, k)[3 * t .. 3 * t + 3] == FrontCap(rim, k + 1)[3 * (t - 1) .. 3 * (t - 1) + 3];
    }
  }

  lemma {:induction false} BackCapAt(rim: nat, k: nat, t: nat)
    requires 0 < rim && k + t < rim
    ensures BackCap(rim, k)[3 * t .. 3 * t + 3] == [(k + t + 1) % rim, k + t, rim + 1]
    decreases t
  {
    if t > 0 {
      BackCapAt(rim, k + 1, t - 1);
      assert BackCap(rim, k)[3 * t .. 3 * t + 3] == BackCap(rim, k + 1)[3 * (t - 1) .. 3 * (t - 1) + 3];
    }
  }

  /** Triangle t of the front cap and triangle t of the back cap (the second half of
      the list) share the rim edge (t, t+1 mod 2P), run it in opposite directions, and
      close on different apexes. */
  lemma StarTriangles(points: nat, t: nat)
    requires points >= 3 && t < 2 * points
    ensures var r := StarIndices(points); var rim := 2 * points;
      && Triangle(r, t) == [t, (t + 1) % rim, rim]
      && Triangle(r[3 * rim..], t) == [(t + 1) % rim, t, rim + 1]
  {
    var rim := 2 * points;
    var r := StarIndices(points);
    FrontCapAt(rim, 0, t);
    BackCapAt(rim, 0, t);
    assert r[3 * t .. 3 * t + 3] == FrontCap(rim, 0)[3 * t .. 3 * t + 3];
    assert r[3 * rim..] == BackCap(rim, 0);
  }

  /** Triangle `t` of an index list: its entries 3t, 3t+1 and 3t+2. */
  function Triangle(indices: seq<nat>, t: nat): seq<nat>
    requires 3 * t + 3 <= |indices|
  {
    indices[3 * t .. 3 * t + 3]
  }

  /** `s` is the star of `points` points, described triangle by triangle: front
      triangle t joins rim vertices t and t+1 (wrapping) to the front apex, and
      triangle t of the second half (the back cap) runs the same edge backwards to the
      back apex. */
  ghost predicate IsStar(s: SceneModel.Shape, points: nat)
  {
    && s.Custom? && s.vertexCount == StarVertexCount(points) && |s.indices| == 12 * points
    && IndicesInRange(s.indices, s.vertexCount)
    && forall t :: 0 <= t < 2 * points ==>
         && Triangle(s.indices, t) == [t, (t + 1) % (2 * points), 2 * points]
         && Triangle(s.indices[6 * points..], t) == [(t + 1) % (2 * points), t, 2 * points + 1]
  }

  /** The corrected star as a custom shape: its vertex count and its index list. */
  function StarShape(points: nat): (r: SceneModel.Shape)
    requires points >= 3
    ensures r.Custom? && r.vertexCount == StarVertexCount(points) && r.indices == StarIndices(points)
  {
    SceneModel.Custom(StarVertexCount(points), StarIndices(points))
  }

  /** The corrected index list is exactly the star described triangle by triangle. */
  lemma StarShapeIsStar(points: nat)
    requires points >= 3
    ensures IsStar(StarShape(points), points)
  {
    var s := StarShape(points);
    var rim := 2 * points;
    forall t | 0 <= t < rim
      ensures Triangle(s.indices, t) == [t, (t + 1) % rim, rim]
      ensures Triangle(s.indices[3 * rim..], t) == [(t + 1) % rim, t, rim + 1]
    {
      StarTriangles(points, t);
    }
    assert IndicesInRange(s.indices, s.vertexCount);
  }
}
