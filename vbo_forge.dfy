/**
 * `LightLevelOverlayRendererVBO` of the Forge build: the same two
 * triangles per overlay, but each vertex stored interleaved (x, y, z, u, v)
 * in a single array and buffer, drawn with a 20-byte stride.
 */
module VboForge {
  import opened JavaInt
  import opened Atlas
  import opened Seqs
  import opened OverlayQuad
  import V = VboVanilla

  /** The vertex count handed to `glDrawArrays` when `vertexArrayIndex` interleaved floats are stored. */
  function VertexCount(vertexArrayIndex: nat): nat {
    vertexArrayIndex / (3 + 2)
  }

  /** Five floats per vertex: the draw count is exactly the number of vertices stored. */
  lemma VertexCountExact(vs: seq<Vertex>)
    ensures VertexCount(|Interleaved(vs)|) == |vs|
  {
    LayoutsAppend(vs, []);
  }

  /**
   * `getCacheSize` divides the interleaved float count by three, the
   * divisor of the separate-array layout, so it reports ten per overlay:
   * neither the overlay count nor the vertex count (six per overlay).
   */
  lemma CacheSizeUnit(vs: seq<Vertex>, overlays: nat)
    requires |vs| == 6 * overlays
    ensures Div(|Interleaved(vs)|, 3) == 10 * overlays
    ensures overlays > 0 ==> Div(|Interleaved(vs)|, 3) != overlays && Div(|Interleaved(vs)|, 3) != |vs|
  {
    LayoutsAppend(vs, []);
  }

  class RendererVBO {
    const vertexArray: array<real>
    /** The float buffer handed to `glBufferData`; its limit is set by `stopGenerate`. */
    const vertexBuffer: array<real>
    var vertexLimit: nat
    var vertexArrayIndex: nat
    var vertices: nat
    var needUpload: bool
    /** What the GL buffer object holds after the last upload. */
    var uploaded: seq<real>
    /** The number of vertices the array is sized for. */
    ghost const slots: nat
    /** The vertices written since the last `clear`, and the overlays they form. */
    ghost var added: seq<Vertex>
    ghost var overlays: nat

    /** The array holds, up to its index, the interleaved layout of the vertices added. */
    ghost predicate Filled()
      reads this, vertexArray
    {
      vertexArray.Length == 5 * slots && |added| <= slots &&
      vertexArrayIndex == 5 * |added| && vertexArray[..vertexArrayIndex] == Interleaved(added)
    }

    ghost predicate Valid()
      reads this, vertexArray, vertexBuffer
    {
      Filled() && vertexArray != vertexBuffer && vertexBuffer.Length == vertexArray.Length &&
      vertexLimit <= vertexBuffer.Length && |added| == 6 * overlays
    }

    /**
     * Array and buffer of `maxVertices * 3 + maxTexCoords * 2` floats, both
     * counts (2 * drawDistance)^3 + 1, all zero, nothing added.
     */
    constructor (drawDistance: nat)
      ensures Valid() && fresh(vertexArray) && fresh(vertexBuffer)
      ensures slots == V.VertexSlots(drawDistance) && added == [] && overlays == 0
      ensures vertexLimit == vertexBuffer.Length
      ensures vertices == 0 && !needUpload && uploaded == []
    {
      var maxVertices := V.VertexSlots(drawDistance);
      var maxTexCoords := V.VertexSlots(drawDistance);
      var maxFloats := maxVertices * 3 + maxTexCoords * 2;
      vertexBuffer := new real[maxFloats](_ => 0.0);
      vertexArray := new real[maxFloats](_ => 0.0);
      vertexLimit := maxFloats;
      vertexArrayIndex := 0;
      vertices := 0;
      needUpload := false;
      uploaded := [];
      slots := maxVertices;
      added := [];
      overlays := 0;
    }

    /** Forgets the overlays written so far; the array contents stay as they are. */
    method Clear()
      requires Valid()
      modifies this`vertexArrayIndex, this`added, this`overlays
      ensures Valid() && added == [] && overlays == 0 && vertexArrayIndex == 0
    {
      vertexArrayIndex := 0;
      added := [];
      overlays := 0;
    }

    /** `startGenerate`: a new pass starts from an empty array. */
    method StartGenerate()
      requires Valid()
      modifies this`vertexArrayIndex, this`added, this`overlays
      ensures Valid() && added == [] && overlays == 0
    {
      Clear();
    }

    /** Appends one vertex, five floats, to the interleaved array. */
    method AddVertex(x: real, y: real, z: real, u: real, v: real)
      requires Filled() && |added| < slots
      modifies vertexArray, this`vertexArrayIndex, this`added
      ensures Filled() && added == old(added) + [Vertex(x, y, z, u, v)]
    {
      ghost var before := vertexArray[..vertexArrayIndex];
      vertexArray[vertexArrayIndex] := x;
      vertexArrayIndex := vertexArrayIndex + 1;
      vertexArray[vertexArrayIndex] := y;
      vertexArrayIndex := vertexArrayIndex + 1;
      vertexArray[vertexArrayIndex] := z;
      vertexArrayIndex := vertexArrayIndex + 1;
      vertexArray[vertexArrayIndex] := u;
      vertexArrayIndex := vertexArrayIndex + 1;
      vertexArray[vertexArrayIndex] := v;
      vertexArrayIndex := vertexArrayIndex + 1;
      assert vertexArray[..vertexArrayIndex] == before + [x, y, z, u, v];
      ghost var corner := Vertex(x, y, z, u, v);
      LayoutsAppend(added, [corner]);
      assert Interleaved([corner]) == [x, y, z, u, v] + Interleaved([]);
      added := added + [corner];
    }

    /** Three vertices in turn: one triangle of the quad. */
    method AddTriangle(a: Vertex, b: Vertex, c: Vertex)
      requires Filled() && |added| + 3 <= slots
      modifies vertexArray, this`vertexArrayIndex, this`added
      ensures Filled() && added == old(added) + [a, b, c]
    {
      AddVertex(a.x, a.y, a.z, a.u, a.v);
      AddVertex(b.x, b.y, b.z, b.u, b.v);
      AddVertex(c.x, c.y, c.z, c.u, c.v);
    }

    /** The writes of `addOverlay` once there is room: the two triangles of the block's quad, textured. */
    method WriteQuad(x: int, y: int, z: int, blockHeight: real, textureX: real, textureY: real)
      requires Filled() && |added| + 6 <= slots
      modifies vertexArray, this`vertexArrayIndex, this`added
      ensures Filled() && added == old(added) + TileQuad(x, y, z, blockHeight, textureX, textureY)
      ensures |added| == |old(added)| + 6
    {
      var umin := (textureX + 0.0 * 16.0) / 256.0;
      var umax := (textureX + 1.0 * 16.0 - 0.01) / 256.0;
      var vmin := (textureY + 0.0 * 16.0) / 256.0;
      var vmax := (textureY + 1.0 * 16.0 - 0.01) / 256.0;
      var xmin := x as real + 0.0;
      var xmax := x as real + 1.0;
      var ycoord := y as real + blockHeight + 0.014;
      var zmin := z as real + 0.0;
      var zmax := z as real + 1.0;

      var c0, c1, c2 := Vertex(xmax, ycoord, zmax, umax, vmax), Vertex(xmax, ycoord, zmin, umax, vmin),
                        Vertex(xmin, ycoord, zmin, umin, vmin);
      var c3, c4, c5 := Vertex(xmax, ycoord, zmax, umax, vmax), Vertex(xmin, ycoord, zmin, umin, vmin),
                        Vertex(xmin, ycoord, zmax, umin, vmax);
      assert [c0, c1, c2] + [c3, c4, c5] == TileQuad(x, y, z, blockHeight, textureX, textureY);
      ghost var before := added;
      AddTriangle(c0, c1, c2);
      AddTriangle(c3, c4, c5);
      AppendAssoc(before, [c0, c1, c2], [c3, c4, c5]);
    }

    /**
     * `addOverlay`: appends the quad of the block at (x, y, z). When the
     * array has no room for six more vertices nothing is written and `ok`
     * is false (the source runs past the array end and throws).
     */
    method AddOverlay(x: int, y: int, z: int, blockHeight: real, tex: int) returns (ok: bool)
      requires Valid() && IsInt32(tex)
      modifies vertexArray, this`vertexArrayIndex, this`added, this`overlays
      ensures Valid()
      ensures ok <==> |old(added)| + 6 <= slots
      ensures ok ==> added == old(added) + QuadCorners(x, y, z, blockHeight, tex) && overlays == old(overlays) + 1
      ensures !ok ==> added == old(added) && overlays == old(overlays)
    {
      if vertexArrayIndex + 30 > vertexArray.Length {
        return false;
      }
      var textureX := TextureX(tex) as real;
      var textureY := TextureY(tex) as real;
      WriteQuad(x, y, z, blockHeight, textureX, textureY);
      overlays := overlays + 1;
      ok := true;
    }

    /**
     * `stopGenerate`: the buffer's limit becomes the filled length, its
     * contents the array's filled prefix, the draw count the number of
     * vertices added, and an upload is due.
     */
    method StopGenerate()
      requires Valid()
      modifies vertexBuffer, this`vertexLimit, this`vertices, this`needUpload
      ensures Valid()
      ensures vertexBuffer[..vertexLimit] == Interleaved(added)
      ensures vertices == |added| && needUpload
    {
      vertexLimit := vertexArrayIndex;
      forall i | 0 <= i < vertexArrayIndex {
        vertexBuffer[i] := vertexArray[i];
      }
      assert vertexBuffer[..vertexLimit] == vertexArray[..vertexArrayIndex];
      VertexCountExact(added);
      vertices := VertexCount(vertexArrayIndex);
      needUpload := true;
    }

    /** `uploadBuffers`: the GL buffer object receives the buffer's contents up to its limit. */
    method UploadBuffers()
      requires Valid()
      modifies this`uploaded, this`needUpload
      ensures uploaded == vertexBuffer[..vertexLimit] && !needUpload
    {
      uploaded := vertexBuffer[..vertexLimit];
      needUpload := false;
    }

    /** `getCacheSize`: the interleaved floats over three, which is ten per overlay. */
    method GetCacheSize() returns (n: int)
      requires Valid()
      ensures n == 10 * overlays
    {
      n := Div(vertexArrayIndex, 3);
      CacheSizeUnit(added, overlays);
    }

    /**
     * `render`: uploads when an upload is due, then draws `vertices`
     * vertices unless there are none; `drawn` is the count handed to
     * `glDrawArrays` (0 when nothing is drawn). After a pass and its upload
     * the draw reads exactly the uploaded floats, five per vertex.
     */
    method Render() returns (drawn: nat)
      requires Valid()
      modifies this`uploaded, this`needUpload
      ensures !needUpload
      ensures old(needUpload) ==> uploaded == vertexBuffer[..vertexLimit]
      ensures !old(needUpload) ==> uploaded == old(uploaded)
      ensures drawn == vertices
      ensures vertices == |added| && uploaded == Interleaved(added) ==> 5 * drawn == |uploaded|
    {
      if needUpload {
        UploadBuffers();
      }
      if vertices == 0 {
        return 0;
      }
      LayoutsAppend(added, []);
      drawn := vertices;
    }
  }
}
