/**
 * The slice geometry of VolumeRendering/main.cpp (in `main`): one textured quad
 * per slice of the scan, all of them in one flat vertex buffer of floats and one
 * index buffer of GLuint, filled in a single loop through three counters.
 *
 * A vertex is 6 floats, position (x, y, z) then texture coordinate (u, v, w);
 * a slice is 4 vertices (24 floats) and 2 triangles (6 indices). Floats are
 * modelled as reals: the model does not capture IEEE rounding of z and w.
 */
module SliceGeometry {
  import opened ScanConfig

  /** The element type of the index buffer (std::vector<GLuint>). */
  newtype GLuint = x: int | 0 <= x < 0x1_0000_0000


  /**
   * Depth of slice j. The divisor is the literal 109, not the slice count, so the
   * slices span [-1, 1) only for the 109-slice scan.
   */
  function MappedZ(j: int): (z: real)
    ensures 0 <= j < 109 ==> -1.0 <= z < 1.0
    ensures j == 0 <==> z == -1.0
  {
    -1.0 + 2.0 * (j as real) / 109.0
  }

  /** Third texture coordinate of slice j: `mappedZVal + 1.0f / 2.0f`, that is z + 0.5. */
  function TexW(j: int): real
  {
    MappedZ(j) + 1.0 / 2.0
  }

  datatype Vertex = Vertex(x: real, y: real, z: real, u: real, v: real, w: real)

  /** The 6 floats of a vertex in buffer order. */
  function Flatten(p: Vertex): seq<real>
  {
    [p.x, p.y, p.z, p.u, p.v, p.w]
  }

  /**
   * The quad of slice j: corners (x, y) = (0.5, 0.5), (0.5, -0.5), (-0.5, -0.5),
   * (-0.5, 0.5) in that order, all at depth MappedZ(j). Each corner's texture
   * coordinate is its position shifted by 0.5 in x and y, so the quad maps onto
   * the unit square of the texture, and by 0.5 in depth.
   */
  function SliceQuad(j: int): (q: seq<Vertex>)
    ensures |q| == 4
    ensures forall c :: 0 <= c < 4 ==>
      q[c].z == MappedZ(j) && q[c].w == TexW(j) && q[c].w == q[c].z + 0.5 &&
      q[c].u == q[c].x + 0.5 && q[c].v == q[c].y + 0.5 &&
      (q[c].x == 0.5 || q[c].x == -0.5) && (q[c].y == 0.5 || q[c].y == -0.5)
  {
    var z, w := MappedZ(j), TexW(j);
    [Vertex(0.5, 0.5, z, 1.0, 1.0, w),
     Vertex(0.5, -0.5, z, 1.0, 0.0, w),
     Vertex(-0.5, -0.5, z, 0.0, 0.0, w),
     Vertex(-0.5, 0.5, z, 0.0, 1.0, w)]
  }

  /** The 24 floats the loop writes for slice j. */
  function SliceFloats(j: int): seq<real>
  {
    var q := SliceQuad(j);
    Flatten(q[0]) + Flatten(q[1]) + Flatten(q[2]) + Flatten(q[3])
  }

  /** Float 6c + r of a slice is attribute r of its corner c. */
  lemma SliceFloatsAt(j: int, c: nat, r: nat)
    requires c < 4 && r < 6
    ensures |SliceFloats(j)| == 24 && SliceFloats(j)[6 * c + r] == Flatten(SliceQuad(j)[c])[r]
  {
    var q := SliceQuad(j);
    var f0, f1, f2, f3 := Flatten(q[0]), Flatten(q[1]), Flatten(q[2]), Flatten(q[3]);
    assert SliceFloats(j) == f0 + f1 + f2 + f3;
    if c == 0 {
      assert (f0 + f1 + f2 + f3)[r] == f0[r];
    } else if c == 1 {
      assert (f0 + f1 + f2 + f3)[6 + r] == f1[r];
    } else if c == 2 {
      assert (f0 + f1 + f2 + f3)[12 + r] == f2[r];
    } else {
      assert (f0 + f1 + f2 + f3)[18 + r] == f3[r];
    }
  }

  /** The 6 indices the loop writes for the quad whose first vertex is `base`. */
  function QuadIndices(base: int): seq<int>
  {
    [base, base + 1, base + 3, base + 1, base + 2, base + 3]
  }

  /** The vertex buffer after the first n slices. */
  function VertexBuffer(n: nat): (data: seq<real>)
    ensures |data| == 24 * n
  {
    if n == 0 then [] else VertexBuffer(n - 1) + SliceFloats(n - 1)
  }

  /**
   * The index buffer after the first n slices. It has 6 entries per slice and
   * every entry names one of the 4n vertices written so far.
   */
  function IndexBuffer(n: nat): (indices: seq<int>)
    ensures |indices| == 6 * n
    ensures forall k :: 0 <= k < |indices| ==> 0 <= indices[k] < 4 * n
  {
    if n == 0 then [] else IndexBuffer(n - 1) + QuadIndices(4 * (n - 1))
  }

  /**
   * Writes the 6 floats of vertex `p` at position i of the vertex buffer, as
   * six `(*data)[i++] = ...` assignments of the loop do; nothing else changes.
   */
  method PutVertex(data: array<real>, i: nat, p: Vertex)
    requires i + 6 <= data.Length
    modifies data
    ensures forall k :: 0 <= k < data.Length ==>
      data[k] == if i <= k < i + 6 then Flatten(p)[k - i] else old(data[k])
  {
    data[i] := p.x;
    data[i + 1] := p.y;
    data[i + 2] := p.z;
    data[i + 3] := p.u;
    data[i + 4] := p.v;
    data[i + 5] := p.w;
  }

  /**
   * The 24 writes of one loop iteration: the quad of slice j at position i of
   * the vertex buffer, from its depth `mappedZVal` and texture depth `zTex`;
   * nothing else changes.
   */
  method PutSlice(data: array<real>, i: nat, j: nat)
    requires i + 24 <= data.Length
    modifies data
    ensures data[..i + 24] == old(data[..i]) + SliceFloats(j)
    ensures forall k :: 0 <= k < data.Length && !(i <= k < i + 24) ==> data[k] == old(data[k])
  {
    var mappedZVal := -1.0 + 2.0 * (j as real) / 109.0;
    var zTex := mappedZVal + 1.0 / 2.0;

    PutVertex(data, i, Vertex(0.5, 0.5, mappedZVal, 1.0, 1.0, zTex));
    PutVertex(data, i + 6, Vertex(0.5, -0.5, mappedZVal, 1.0, 0.0, zTex));
    PutVertex(data, i + 12, Vertex(-0.5, -0.5, mappedZVal, 0.0, 0.0, zTex));
    PutVertex(data, i + 18, Vertex(-0.5, 0.5, mappedZVal, 0.0, 1.0, zTex));

    forall k | i <= k < i + 24
      ensures data[k] == SliceFloats(j)[k - i]
    {
      var c := if k < i + 6 then 0 else if k < i + 12 then 1 else if k < i + 18 then 2 else 3;
      SliceFloatsAt(j, c, k - i - 6 * c);
    }
    assert data[..i + 24] == old(data[..i]) + SliceFloats(j);
  }

  /**
   * Writes the 6 indices of the quad whose first vertex is `iIndex` at position
   * lIndex of the index buffer, first triangle then second; nothing else changes.
   */
  method PutQuadIndices(dataIndex: array<GLuint>, lIndex: nat, iIndex: nat)
    requires lIndex + 6 <= dataIndex.Length && iIndex + 3 < 0x1_0000_0000
    modifies dataIndex
    ensures forall k :: 0 <= k < dataIndex.Length && !(lIndex <= k < lIndex + 6) ==>
      dataIndex[k] == old(dataIndex[k])
    ensures forall c :: 0 <= c < 6 ==> dataIndex[lIndex + c] as int == QuadIndices(iIndex)[c]
  {
    dataIndex[lIndex] := iIndex as GLuint;
    dataIndex[lIndex + 1] := (iIndex + 1) as GLuint;
    dataIndex[lIndex + 2] := (iIndex + 3) as GLuint;
    dataIndex[lIndex + 3] := (iIndex + 1) as GLuint;
    dataIndex[lIndex + 4] := (iIndex + 2) as GLuint;
    dataIndex[lIndex + 5] := (iIndex + 3) as GLuint;
  }

  /**
   * The geometry loop of `main`: both buffers are sized for `imageCount` slices,
   * then every slice writes its 24 floats at counter i, its 6 indices at counter
   * lIndex, and advances iIndex, its first vertex, by 4.
   */
  method BuildSliceBuffers(imageCount: nat) returns (data: array<real>, dataIndex: array<GLuint>)
    requires 24 * imageCount <= IntMax
    ensures data.Length == 24 * imageCount
    ensures dataIndex.Length == 6 * imageCount
    ensures data[..] == VertexBuffer(imageCount)
    ensures forall k :: 0 <= k < dataIndex.Length ==> dataIndex[k] as int == IndexBuffer(imageCount)[k]
  {
    data := new real[24 * imageCount];
    dataIndex := new GLuint[6 * imageCount];

    var i, iIndex, lIndex := 0, 0, 0;
    for j := 0 to imageCount
      invariant i == 24 * j && lIndex == 6 * j && iIndex == 4 * j
      invariant data[..i] == VertexBuffer(j)
      invariant forall k :: 0 <= k < lIndex ==> dataIndex[k] as int == IndexBuffer(j)[k]
    {
      PutSlice(data, i, j);
      assert data[..i + 24] == VertexBuffer(j + 1);
      i := i + 24;

      // quad data indices
      ghost var indices := IndexBuffer(j + 1);
      assert indices == IndexBuffer(j) + QuadIndices(iIndex);
      PutQuadIndices(dataIndex, lIndex, iIndex);
      forall k | 0 <= k < lIndex + 6
        ensures dataIndex[k] as int == indices[k]
      {
        if k < lIndex {
          assert indices[k] == IndexBuffer(j)[k];
        } else {
          assert dataIndex[lIndex + (k - lIndex)] as int == QuadIndices(iIndex)[k - lIndex];
        }
      }
      lIndex := lIndex + 6;

      iIndex := iIndex + 4;
    }
    assert data[..i] == data[..];
  }

  /** Slices are evenly spaced by 2/109 and strictly increasing in depth. */
  lemma SliceDepthOrder(j: int, k: int)
    requires j < k
    ensures MappedZ(j) < MappedZ(k)
    ensures MappedZ(k) - MappedZ(j) == 2.0 * ((k - j) as real) / 109.0
  {
  }

  /**
   * The third texture coordinate z + 0.5 that the 109 slices hand to the vertex
   * shader ranges over [-0.5, 1.5); it lies inside the texture's [0, 1] exactly
   * for slices 28 to 81. What the shaders then sample is not part of this model.
   */
  lemma TexWInsideVolume(j: int)
    requires 0 <= j < ImageCount
    ensures -0.5 <= TexW(j) < 1.5
    ensures 0.0 <= TexW(j) <= 1.0 <==> 28 <= j <= 81
  {
  }

  /** The 24 floats of slice j sit at offset 24j of the vertex buffer. */
  lemma {:induction false} VertexBufferSlice(n: nat, j: nat)
    requires j < n
    ensures VertexBuffer(n)[24 * j..24 * j + 24] == SliceFloats(j)
  {
    if j < n - 1 {
      VertexBufferSlice(n - 1, j);
      assert VertexBuffer(n)[..24 * (n - 1)] == VertexBuffer(n - 1);
    }
  }

  /**
   * The 6 index entries of slice j, at offset 6j, are its vertices 4j + 0, 1, 3
   * (first triangle) and 4j + 1, 2, 3 (second triangle), sharing the edge
   * (4j + 1, 4j + 3).
   */
  lemma {:induction false} IndexBufferSlice(n: nat, j: nat)
    requires j < n
    ensures var indices := IndexBuffer(n);
      indices[6 * j] == 4 * j && indices[6 * j + 1] == 4 * j + 1 && indices[6 * j + 2] == 4 * j + 3 &&
      indices[6 * j + 3] == 4 * j + 1 && indices[6 * j + 4] == 4 * j + 2 && indices[6 * j + 5] == 4 * j + 3
  {
    if j < n - 1 {
      IndexBufferSlice(n - 1, j);
      var prefix := IndexBuffer(n - 1);
      assert forall k :: 0 <= k < |prefix| ==> IndexBuffer(n)[k] == prefix[k];
    }
  }

  /**
   * Vertex 4j + c of the buffer (floats 24j + 6c to 24j + 6c + 5) is corner c of
   * the quad of slice j: the buffer is a sequence of whole vertices.
   */
  lemma {:induction false} VertexRecord(n: nat, j: nat, c: nat)
    requires j < n && c < 4
    ensures VertexBuffer(n)[6 * (4 * j + c)..6 * (4 * j + c) + 6] == Flatten(SliceQuad(j)[c])
  {
    VertexBufferSlice(n, j);
    var buf := VertexBuffer(n);
    var q := SliceQuad(j);
    forall r | 0 <= r < 6
      ensures buf[6 * (4 * j + c) + r] == Flatten(q[c])[r]
    {
      assert buf[6 * (4 * j + c) + r] == buf[24 * j..24 * j + 24][6 * c + r];
      SliceFloatsAt(j, c, r);
    }
    assert buf[6 * (4 * j + c)..6 * (4 * j + c) + 6] == Flatten(q[c]);
  }

  /** Every one of the 4n vertices is used by some triangle. */
  lemma {:induction false} IndexBufferCoversVertices(n: nat)
    ensures forall v :: 0 <= v < 4 * n ==> v in IndexBuffer(n)
  {
    forall v | 0 <= v < 4 * n
      ensures v in IndexBuffer(n)
    {
      var j := v / 4;
      IndexBufferSlice(n, j);
      var indices := IndexBuffer(n);
      if v % 4 == 0 {
        assert indices[6 * j] == v;
      } else if v % 4 == 1 {
        assert indices[6 * j + 1] == v;
      } else if v % 4 == 2 {
        assert indices[6 * j + 4] == v;
      } else {
        assert indices[6 * j + 2] == v;
      }
    }
  }

  /** The position (x, y, z) of vertex k in a vertex buffer. */
  function PositionOf(data: seq<real>, k: nat): (real, real, real)
    requires 6 * k + 3 <= |data|
  {
    (data[6 * k], data[6 * k + 1], data[6 * k + 2])
  }

  /** Twice the signed area of the triangle (a, b, c) projected on the xy-plane. */
  function SignedArea2(a: (real, real, real), b: (real, real, real), c: (real, real, real)): real
  {
    (b.0 - a.0) * (c.1 - a.1) - (b.1 - a.1) * (c.0 - a.0)
  }

  /** The position of vertex 4j + c of the buffer is that of corner c of slice j. */
  lemma {:induction false} CornerPosition(n: nat, j: nat, c: nat)
    requires j < n && c < 4
    ensures var p := SliceQuad(j)[c];
      PositionOf(VertexBuffer(n), 4 * j + c) == (p.x, p.y, p.z)
  {
    VertexRecord(n, j, c);
    var k := 6 * (4 * j + c);
    var buf := VertexBuffer(n);
    assert buf[k] == buf[k..k + 6][0];
    assert buf[k + 1] == buf[k..k + 6][1];
    assert buf[k + 2] == buf[k..k + 6][2];
  }

  /**
   * The six indices of slice j name vertices of that slice's quad only, and
   * all of them lie at the slice's depth: each triangle lies in its slice.
   */
  lemma {:induction false} QuadTrianglesInSlice(n: nat, j: nat)
    requires j < n
    ensures forall s :: 6 * j <= s < 6 * j + 6 ==>
      4 * j <= IndexBuffer(n)[s] < 4 * j + 4 &&
      PositionOf(VertexBuffer(n), IndexBuffer(n)[s]).2 == MappedZ(j)
  {
    var indices, data := IndexBuffer(n), VertexBuffer(n);
    IndexBufferSlice(n, j);
    forall s | 6 * j <= s < 6 * j + 6
      ensures 4 * j <= indices[s] < 4 * j + 4 && PositionOf(data, indices[s]).2 == MappedZ(j)
    {
      var r := s - 6 * j;
      var c := if r == 0 then 0 else if r == 1 || r == 3 then 1 else if r == 4 then 2 else 3;
      assert indices[s] == 4 * j + c;
      CornerPosition(n, j, c);
      assert SliceQuad(j)[c].z == MappedZ(j);
    }
  }

  /**
   * The two triangles of slice j, (4j, 4j+1, 4j+3) and (4j+1, 4j+2, 4j+3), both
   * wind clockwise in the xy-plane with area 1/2, so together they cover the
   * unit quad without overlap.
   */
  lemma {:induction false} QuadWinding(n: nat, j: nat)
    requires j < n
    ensures var indices, data := IndexBuffer(n), VertexBuffer(n);
      SignedArea2(PositionOf(data, indices[6 * j]), PositionOf(data, indices[6 * j + 1]),
                  PositionOf(data, indices[6 * j + 2])) == -1.0 &&
      SignedArea2(PositionOf(data, indices[6 * j + 3]), PositionOf(data, indices[6 * j + 4]),
                  PositionOf(data, indices[6 * j + 5])) == -1.0
  {
    var data := VertexBuffer(n);
    IndexBufferSlice(n, j);
    CornerPosition(n, j, 0);
    CornerPosition(n, j, 1);
    CornerPosition(n, j, 2);
    CornerPosition(n, j, 3);
    var z := MappedZ(j);
    var p0, p1 := PositionOf(data, 4 * j), PositionOf(data, 4 * j + 1);
    var p2, p3 := PositionOf(data, 4 * j + 2), PositionOf(data, 4 * j + 3);
    assert p0 == (0.5, 0.5, z) && p1 == (0.5, -0.5, z) && p2 == (-0.5, -0.5, z) && p3 == (-0.5, 0.5, z);
  }
}
