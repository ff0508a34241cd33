/** Implicit fan triangulation, shared by every surface and tet quantity that
    packs per-triangle attribute buffers.

    A face of degree D is cut from its corner 0 into the triangles
    (0, j, j+1) for j = 1 .. D-2, and every triangle emits three buffer
    entries, one per corner, in that order; faces come in mesh order. A face
    of degree below 3 emits nothing. What is read for an emitted corner
    depends on the quantity: the global corner index (a running counter that
    advances by D per face), the vertex id stored in the face, or the face's
    own index. */
module Fan {

  /** The k-th corner of face `face`. */
  datatype FaceCorner = FaceCorner(face: nat, k: nat)

  /** Number of fan triangles of a face of degree d: max(d - 2, 0). */
  function TriCount(d: nat): nat
  {
    if d >= 2 then d - 2 else 0
  }

  /** Corner of a face at position p (0, 1 or 2) of its fan triangle t,
      where t = j - 1 for the source's loop variable j: corners 0, j, j+1. */
  function FanCorner(t: nat, p: nat): nat
  {
    if p == 0 then 0 else t + p
  }

  /** The corners face i, of degree d, emits, in emission order. */
  function FaceFan(i: nat, d: nat): (r: seq<FaceCorner>)
    ensures |r| == 3 * TriCount(d)
  {
    seq(3 * TriCount(d), q requires 0 <= q < 3 * TriCount(d) => FaceCorner(i, FanCorner(q / 3, q % 3)))
  }

  /** Total number of corners of the faces: the final value of the corner counter. */
  function Corners<V>(m: seq<seq<V>>): nat
  {
    if m == [] then 0 else Corners(m[..|m| - 1]) + |m[|m| - 1]|
  }

  /** Total number of fan triangles of the faces. */
  function Triangles<V>(m: seq<seq<V>>): nat
  {
    if m == [] then 0 else Triangles(m[..|m| - 1]) + TriCount(|m[|m| - 1]|)
  }

  /** The corners every emitted buffer entry stands for, in buffer order. */
  function FanCorners<V>(m: seq<seq<V>>): (r: seq<FaceCorner>)
    ensures |r| == 3 * Triangles(m)
  {
    if m == [] then []
    else FanCorners(m[..|m| - 1]) + FaceFan(|m| - 1, |m[|m| - 1]|)
  }

  /** Every corner face i emits is one of its own d corners. */
  lemma FaceFanBounds(i: nat, d: nat)
    ensures forall q :: 0 <= q < |FaceFan(i, d)| ==> FaceFan(i, d)[q].face == i && FaceFan(i, d)[q].k < d
  {
  }

  /** Every emitted corner is a real corner of the mesh. */
  lemma {:induction false} FanCornersBounds<V>(m: seq<seq<V>>)
    ensures forall q :: 0 <= q < |FanCorners(m)| ==>
      FanCorners(m)[q].face < |m| && FanCorners(m)[q].k < |m[FanCorners(m)[q].face]|
  {
    if m != [] {
      var init := m[..|m| - 1];
      FanCornersBounds(init);
      FaceFanBounds(|m| - 1, |m[|m| - 1]|);
      forall q | 0 <= q < |FanCorners(m)|
        ensures FanCorners(m)[q].face < |m| && FanCorners(m)[q].k < |m[FanCorners(m)[q].face]|
      {
        if q < |FanCorners(init)| {
          assert FanCorners(m)[q] == FanCorners(init)[q];
          assert init[FanCorners(init)[q].face] == m[FanCorners(init)[q].face];
        }
      }
    }
  }

  /** Corner-indexed data: the global corner index of each emitted entry. */
  function CornerIndices<V>(m: seq<seq<V>>): (r: seq<nat>)
    ensures |r| == 3 * Triangles(m)
  {
    FanCornersBounds(m);
    var fc := FanCorners(m);
    seq(|fc|, q requires 0 <= q < |fc| => Corners(m[..fc[q].face]) + fc[q].k)
  }

  /** Vertex-indexed data: the face entry (`face[k]`) at each emitted corner. */
  function FanVertices<V>(m: seq<seq<V>>): (r: seq<V>)
    ensures |r| == 3 * Triangles(m)
  {
    FanCornersBounds(m);
    var fc := FanCorners(m);
    seq(|fc|, q requires 0 <= q < |fc| => m[fc[q].face][fc[q].k])
  }

  /** Face-indexed data: the index of the face each emitted entry belongs to. */
  function FaceIndices<V>(m: seq<seq<V>>): (r: seq<nat>)
    ensures |r| == 3 * Triangles(m)
  {
    FanCornersBounds(m);
    var fc := FanCorners(m);
    seq(|fc|, q requires 0 <= q < |fc| => fc[q].face)
  }

  /** Every index is a valid position of a sequence of length n. */
  predicate InRange(idx: seq<nat>, n: nat)
  {
    forall q :: 0 <= q < |idx| ==> idx[q] < n
  }

  /** The entries of `data` at the given indices, in order. */
  function Gather<T>(data: seq<T>, idx: seq<nat>): seq<T>
    requires InRange(idx, |data|)
  {
    seq(|idx|, q requires 0 <= q < |idx| => data[idx[q]])
  }

  /** Every face is non-empty, so that `face[0]` can be read. */
  predicate NoEmptyFace<V>(m: seq<seq<V>>)
  {
    forall i :: 0 <= i < |m| ==> |m[i]| > 0
  }

  /** Every face is non-empty and its root vertex `face[0]` is below n: the
      fills that read the root before the fan loop read it for every face. */
  predicate RootsInRange(m: seq<seq<nat>>, n: nat)
  {
    forall i :: 0 <= i < |m| ==> |m[i]| > 0 && m[i][0] < n
  }

  /** `buf` holds the first |buf| entries of `Gather(data, idx)`: the
      invariant of a fill loop part way through. */
  ghost predicate GatheredPrefix<T>(buf: seq<T>, data: seq<T>, idx: seq<nat>)
  {
    |buf| <= |idx| && forall q :: 0 <= q < |buf| ==> idx[q] < |data| && buf[q] == data[idx[q]]
  }

  /** Appending the next fan triangle's three entries keeps the invariant. */
  lemma GatheredExtend<T>(buf: seq<T>, data: seq<T>, idx: seq<nat>)
    requires GatheredPrefix(buf, data, idx) && |buf| + 3 <= |idx| && InRange(idx, |data|)
    ensures var n := |buf|;
      GatheredPrefix(buf + [data[idx[n]], data[idx[n + 1]], data[idx[n + 2]]], data, idx)
  {
  }

  /** A finished fill is the whole gather. */
  lemma GatheredWhole<T>(buf: seq<T>, data: seq<T>, idx: seq<nat>)
    requires GatheredPrefix(buf, data, idx) && |buf| == |idx| && InRange(idx, |data|)
    ensures buf == Gather(data, idx)
  {
  }

  /** First buffer slot of the fan triangle j (1 <= j) of face i. */
  function TriangleSlot<V>(m: seq<seq<V>>, i: nat, j: nat): nat
    requires i <= |m| && 1 <= j
  {
    3 * (Triangles(m[..i]) + j - 1)
  }

  lemma PrefixOfPrefix<V>(m: seq<seq<V>>, i: nat, n: nat)
    requires i <= n <= |m|
    ensures m[..n][..i] == m[..i]
  {
  }

  /** Slot 3 * (triangles before face i + t) + p holds position p of fan triangle t of face i. */
  lemma {:induction false} FanCornersAt<V>(m: seq<seq<V>>, i: nat, t: nat, p: nat)
    requires i < |m| && t < TriCount(|m[i]|) && p < 3
    ensures 3 * (Triangles(m[..i]) + t) + p < |FanCorners(m)|
    ensures FanCorners(m)[3 * (Triangles(m[..i]) + t) + p] == FaceCorner(i, FanCorner(t, p))
  {
    var init := m[..|m| - 1];
    assert FanCorners(m) == FanCorners(init) + FaceFan(|m| - 1, |m[|m| - 1]|);
    if i == |m| - 1 {
      assert m[..i] == init;
      var q := 3 * t + p;
      assert q / 3 == t && q % 3 == p;
      assert FaceFan(i, |m[i]|)[q] == FaceCorner(i, FanCorner(t, p));
    } else {
      FanCornersAt(init, i, t, p);
      PrefixOfPrefix(m, i, |m| - 1);
    }
  }

  /** Conversely, every slot q belongs to exactly the face, fan triangle and
      position that FanCornersAt names: the fan layout accounts for the whole buffer. */
  lemma {:induction false} FanCornersLocate<V>(m: seq<seq<V>>, q: nat)
    requires q < |FanCorners(m)|
    ensures var i := FanCorners(m)[q].face;
      i < |m| &&
      3 * Triangles(m[..i]) <= q < 3 * (Triangles(m[..i]) + TriCount(|m[i]|)) &&
      FanCorners(m)[q] == FaceCorner(i, FanCorner((q - 3 * Triangles(m[..i])) / 3, q % 3))
  {
    var init := m[..|m| - 1];
    var last := |m| - 1;
    assert FanCorners(m) == FanCorners(init) + FaceFan(last, |m[last]|);
    if q < |FanCorners(init)| {
      FanCornersLocate(init, q);
      var i := FanCorners(init)[q].face;
      assert FanCorners(m)[q] == FanCorners(init)[q];
      PrefixOfPrefix(m, i, last);
      assert init[i] == m[i];
    } else {
      assert m[..last] == init;
      var r := q - 3 * Triangles(init);
      assert FanCorners(m)[q] == FaceFan(last, |m[last]|)[r];
      ModThreeShift(Triangles(init), r);
    }
  }

  lemma ModThreeShift(a: nat, r: nat)
    ensures (3 * a + r) % 3 == r % 3
  {
  }

  /** Extending the prefix of faces by face i adds its corners and its triangles. */
  lemma PrefixNext<V>(m: seq<seq<V>>, i: nat)
    requires i < |m|
    ensures Corners(m[..i + 1]) == Corners(m[..i]) + |m[i]|
    ensures Triangles(m[..i + 1]) == Triangles(m[..i]) + TriCount(|m[i]|)
  {
    assert m[..i + 1][..i] == m[..i];
  }

  /** Fan triangle j of face i reads corners c, c + j, c + j + 1 of the
      corner-indexed data, where c is the corner counter at face i. */
  lemma CornerTriangle<V>(m: seq<seq<V>>, i: nat, j: nat)
    requires i < |m| && 1 <= j && j + 1 < |m[i]|
    ensures var q, c := TriangleSlot(m, i, j), Corners(m[..i]);
      q + 2 < |CornerIndices(m)| &&
      CornerIndices(m)[q] == c && CornerIndices(m)[q + 1] == c + j && CornerIndices(m)[q + 2] == c + j + 1
  {
    FanCornersAt(m, i, j - 1, 0);
    FanCornersAt(m, i, j - 1, 1);
    FanCornersAt(m, i, j - 1, 2);
  }

  /** Fan triangle j of face i reads face[0], face[j], face[j + 1] of the vertex-indexed data. */
  lemma VertexTriangle<V>(m: seq<seq<V>>, i: nat, j: nat)
    requires i < |m| && 1 <= j && j + 1 < |m[i]|
    ensures var q := TriangleSlot(m, i, j);
      q + 2 < |FanVertices(m)| &&
      FanVertices(m)[q] == m[i][0] && FanVertices(m)[q + 1] == m[i][j] && FanVertices(m)[q + 2] == m[i][j + 1]
  {
    FanCornersAt(m, i, j - 1, 0);
    FanCornersAt(m, i, j - 1, 1);
    FanCornersAt(m, i, j - 1, 2);
  }

  /** All three entries of every fan triangle of face i read the face-indexed data at i. */
  lemma FaceTriangle<V>(m: seq<seq<V>>, i: nat, j: nat)
    requires i < |m| && 1 <= j && j + 1 < |m[i]|
    ensures var q := TriangleSlot(m, i, j);
      q + 2 < |FaceIndices(m)| &&
      FaceIndices(m)[q] == i && FaceIndices(m)[q + 1] == i && FaceIndices(m)[q + 2] == i
  {
    FanCornersAt(m, i, j - 1, 0);
    FanCornersAt(m, i, j - 1, 1);
    FanCornersAt(m, i, j - 1, 2);
  }

  /** In the fan loop j + 1 < D, so the source's `(j + 1) % D` never wraps around. */
  lemma FanNeverWraps(j: nat, d: nat)
    requires 1 <= j && j + 1 < d
    ensures (j + 1) % d == j + 1
  {
  }

  /** The corners of the faces before face i, plus face i's own, never exceed the total. */
  lemma {:induction false} CornersPrefixBound<V>(m: seq<seq<V>>, i: nat)
    requires i < |m|
    ensures Corners(m[..i]) + |m[i]| <= Corners(m)
  {
    var init := m[..|m| - 1];
    if i < |m| - 1 {
      CornersPrefixBound(init, i);
      PrefixOfPrefix(m, i, |m| - 1);
    } else {
      assert m[..i] == init;
    }
  }

  /** Every index read for face i lies in face i's own corner block [c, c + D),
      and hence below the total corner count. */
  lemma CornerIndicesInBlock<V>(m: seq<seq<V>>, q: nat)
    requires q < |CornerIndices(m)|
    ensures FanCorners(m)[q].face < |m|
    ensures var i := FanCorners(m)[q].face;
      Corners(m[..i]) <= CornerIndices(m)[q] < Corners(m[..i]) + |m[i]| <= Corners(m)
  {
    FanCornersBounds(m);
    CornersPrefixBound(m, FanCorners(m)[q].face);
  }

  /** Corner data with one entry per corner covers every index the fan reads. */
  lemma CornerIndicesInRange<V>(m: seq<seq<V>>, n: nat)
    requires Corners(m) <= n
    ensures InRange(CornerIndices(m), n)
  {
    forall q | 0 <= q < |CornerIndices(m)|
      ensures CornerIndices(m)[q] < n
    {
      CornerIndicesInBlock(m, q);
    }
  }

  /** A face of degree below 3 emits nothing, yet the corner counter still advances by its degree. */
  lemma DegenerateFaceEmitsNothing<V>(m: seq<seq<V>>, f: seq<V>)
    requires |f| < 3
    ensures Corners(m + [f]) == Corners(m) + |f|
    ensures Triangles(m + [f]) == Triangles(m)
    ensures FanCorners(m + [f]) == FanCorners(m)
  {
    assert (m + [f])[..|m|] == m;
  }

  /** Vertex ids stored in faces that are below n cover every vertex the fan reads. */
  lemma {:induction false} FanVerticesInRange(m: seq<seq<nat>>, n: nat)
    requires forall i, k :: 0 <= i < |m| && 0 <= k < |m[i]| ==> m[i][k] < n
    ensures InRange(FanVertices(m), n)
  {
    FanCornersBounds(m);
  }

  /** Face data with one entry per face covers every face the fan reads. */
  lemma FaceIndicesInRange<V>(m: seq<seq<V>>, n: nat)
    requires |m| <= n
    ensures InRange(FaceIndices(m), n)
  {
    FanCornersBounds(m);
  }
}
