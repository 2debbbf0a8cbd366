/**
 * `LightLevelOverlayRendererVBO` of the stand-alone build: overlays are
 * written as two triangles into a vertex array (x, y, z per vertex) and a
 * texture-coordinate array (u, v per vertex), copied into the float buffers
 * at the end of a pass, uploaded on the next frame and drawn with one
 * `glDrawArrays` call.
 */
module VboVanilla {
  import opened JavaInt
  import opened Atlas
  import opened OverlayQuad
  import opened Seqs

  /** The number of vertices the arrays are sized for: (2 * drawDistance)^3 + 1. */
  function VertexSlots(drawDistance: nat): (n: nat)
    ensures n >= 1
  {
    var e := 2 * drawDistance;
    if e > 0 then
      MulAtLeast(e * e, e);
      e * e * e + 1
    else 1
  }

  /** The vertex count handed to `glDrawArrays` when `vertexArrayIndex` floats of positions are stored. */
  function VertexCount(vertexArrayIndex: nat): nat {
    vertexArrayIndex / 3
  }

  /** The stored vertex count is exactly the number of vertices the position array holds. */
  lemma VertexCountExact(vs: seq<Vertex>)
    ensures VertexCount(|Positions(vs)|) == |vs|
    ensures |TexCoords(vs)| == 2 * VertexCount(|Positions(vs)|)
  {
    LayoutsAppend(vs, []);
  }

  /** `stopGenerate` as written: the draw count is the float count of the position array. */
  function VerticesAsWritten(vertexArrayIndex: nat): nat {
    vertexArrayIndex
  }

  /**
   * As written, one overlay (six vertices, 18 position floats) is drawn as
   * 18 vertices, so `glDrawArrays` reads 54 position floats and 36 texture
   * floats from buffers holding 18 and 12: for any non-empty pass the count
   * is three times the vertices stored.
   */
  lemma VerticesAsWrittenOverreads(vs: seq<Vertex>)
    requires |vs| > 0
    ensures VerticesAsWritten(|Positions(vs)|) == 3 * |vs|
    ensures 3 * VerticesAsWritten(|Positions(vs)|) > |Positions(vs)|
    ensures 2 * VerticesAsWritten(|Positions(vs)|) > |TexCoords(vs)|
  {
    LayoutsAppend(vs, []);
  }

  /** The one-overlay instance of the over-read. */
  lemma VerticesAsWrittenCounterexample()
    ensures var q := QuadCorners(0, 64, 0, 1.0, 7);
      |Positions(q)| == 18 && |q| == 6 && VerticesAsWritten(|Positions(q)|) == 18 &&
      VertexCount(|Positions(q)|) == 6
  {
    var q := QuadCorners(0, 64, 0, 1.0, 7);
    LayoutsAppend(q, []);
  }

  class RendererVBO {
    const vertexArray: array<real>
    const texcoordArray: array<real>
    /** The float buffers handed to `glBufferData`; their limits are set by `stopGenerate`. */
    const vertexBuffer: array<real>
    const texcoordBuffer: array<real>
    var vertexLimit: nat
    var texcoordLimit: nat
    var vertexArrayIndex: nat
    var texcoordArrayIndex: nat
    var vertices: nat
    var needUpload: bool
    /** What the GL buffer objects hold after the last upload. */
    var uploadedVertices: seq<real>
    var uploadedTexcoords: seq<real>
    /** The number of vertices the arrays are sized for. */
    ghost const slots: nat
    /** The vertices written since the last `clear`, and the overlays they form. */
    ghost var added: seq<Vertex>
    ghost var overlays: nat

    /** The arrays hold, up to their indices, the layouts of the vertices added. */
    ghost predicate Filled()
      reads this, vertexArray, texcoordArray
    {
      vertexArray != texcoordArray &&
      vertexArray.Length == 3 * slots && texcoordArray.Length == 2 * slots && |added| <= slots &&
      vertexArrayIndex == 3 * |added| && texcoordArrayIndex == 2 * |added| &&
      vertexArray[..vertexArrayIndex] == Positions(added) &&
      texcoordArray[..texcoordArrayIndex] == TexCoords(added)
    }

    ghost predicate Valid()
      reads this, vertexArray, texcoordArray, vertexBuffer, texcoordBuffer
    {
      Filled() &&
      vertexArray != vertexBuffer && vertexArray != texcoordBuffer &&
      texcoordArray != vertexBuffer && texcoordArray != texcoordBuffer && vertexBuffer != texcoordBuffer &&
      vertexBuffer.Length == vertexArray.Length && texcoordBuffer.Length == texcoordArray.Length &&
      vertexLimit <= vertexBuffer.Length && texcoordLimit <= texcoordBuffer.Length &&
      |added| == 6 * overlays
    }

    /** Arrays and buffers sized for (2 * drawDistance)^3 + 1 vertices, all zero, nothing added. */
    constructor (drawDistance: nat)
      ensures Valid() && fresh(vertexArray) && fresh(texcoordArray) && fresh(vertexBuffer) && fresh(texcoordBuffer)
      ensures slots == VertexSlots(drawDistance) && added == [] && overlays == 0
      ensures vertexLimit == vertexBuffer.Length && texcoordLimit == texcoordBuffer.Length
      ensures vertices == 0 && !needUpload && uploadedVertices == [] && uploadedTexcoords == []
    {
      var n := VertexSlots(drawDistance);
      vertexBuffer := new real[n * 3](_ => 0.0);
      texcoordBuffer := new real[n * 2](_ => 0.0);
      vertexArray := new real[n * 3](_ => 0.0);
      texcoordArray := new real[n * 2](_ => 0.0);
      vertexLimit := n * 3;
      texcoordLimit := n * 2;
      vertexArrayIndex := 0;
      texcoordArrayIndex := 0;
      vertices := 0;
      needUpload := false;
      uploadedVertices := [];
      uploadedTexcoords := [];
      slots := n;
      added := [];
      overlays := 0;
    }

    /** Forgets the overlays written so far; the array contents stay as they are. */
    method Clear()
      requires Valid()
      modifies this`vertexArrayIndex, this`texcoordArrayIndex, this`added, this`overlays
      ensures Valid() && added == [] && overlays == 0
      ensures vertexArrayIndex == 0 && texcoordArrayIndex == 0
    {
      vertexArrayIndex := 0;
      texcoordArrayIndex := 0;
      added := [];
      overlays := 0;
    }

    /** `startGenerate`: a new pass starts from an empty array. */
    method StartGenerate()
      requires Valid()
      modifies this`vertexArrayIndex, this`texcoordArrayIndex, this`added, this`overlays
      ensures Valid() && added == [] && overlays == 0
    {
      Clear();
    }

    /** Appends one position (three floats) to the vertex array. */
    method AddVertex(x: real, y: real, z: real)
      requires vertexArrayIndex + 3 <= vertexArray.Length
      modifies vertexArray, this`vertexArrayIndex
      ensures vertexArrayIndex == old(vertexArrayIndex) + 3
      ensures vertexArray[..vertexArrayIndex] == old(vertexArray[..vertexArrayIndex]) + [x, y, z]
    {
      vertexArray[vertexArrayIndex] := x;
      vertexArrayIndex := vertexArrayIndex + 1;
      vertexArray[vertexArrayIndex] := y;
      vertexArrayIndex := vertexArrayIndex + 1;
      vertexArray[vertexArrayIndex] := z;
      vertexArrayIndex := vertexArrayIndex + 1;
    }

    /** Appends one texture coordinate (two floats) to the texture-coordinate array. */
    method AddTexUV(u: real, v: real)
      requires texcoordArrayIndex + 2 <= texcoordArray.Length
      modifies texcoordArray, this`texcoordArrayIndex
      ensures texcoordArrayIndex == old(texcoordArrayIndex) + 2
      ensures texcoordArray[..texcoordArrayIndex] == old(texcoordArray[..texcoordArrayIndex]) + [u, v]
    {
      texcoordArray[texcoordArrayIndex] := u;
      texcoordArrayIndex := texcoordArrayIndex + 1;
      texcoordArray[texcoordArrayIndex] := v;
      texcoordArrayIndex := texcoordArrayIndex + 1;
    }

    /** One `addVertex` call and the `addTexUV` call paired with it: vertex v is appended to both arrays. */
    method AddCorner(v: Vertex)
      requires Filled() && |added| < slots
      modifies vertexArray, texcoordArray, this`vertexArrayIndex, this`texcoordArrayIndex, this`added
      ensures Filled() && added == old(added) + [v]
    {
      AddVertex(v.x, v.y, v.z);
      AddTexUV(v.u, v.v);
      LayoutsAppend(added, [v]);
      assert Positions([v]) == [v.x, v.y, v.z] + Positions([]);
      assert TexCoords([v]) == [v.u, v.v] + TexCoords([]);
      added := added + [v];
    }

    /** Three corners in turn: one triangle of the quad. */
    method AddTriangle(a: Vertex, b: Vertex, c: Vertex)
      requires Filled() && |added| + 3 <= slots
      modifies vertexArray, texcoordArray, this`vertexArrayIndex, this`texcoordArrayIndex, this`added
      ensures Filled() && added == old(added) + [a, b, c]
    {
      AddCorner(a);
      AddCorner(b);
      AddCorner(c);
    }

    /** The writes of `addOverlay` once there is room: the two triangles of the block's quad, textured. */
    method WriteQuad(x: int, y: int, z: int, blockHeight: real, textureX: real, textureY: real)
      requires Filled() && |added| + 6 <= slots
      modifies vertexArray, texcoordArray, this`vertexArrayIndex, this`texcoordArrayIndex, this`added
      ensures Filled() && added == old(added) + TileQuad(x, y, z, blockHeight, textureX, textureY)
      ensures |added| == |old(added)| + 6
    {
      var umin := (textureX + 0.0 * 16.0) / 256.0;
      var umax := (textureX + 1.0 * 16.0 - 0.01) / 256.0;
      var vmin := (textureY + 0.0 * 16.0) / 256.0;
      var vmax := (textureY + 1.0 * 16.0 - 0.01) / 256.0;
      var xmin := x as real + 0.0;
      var xmax := x as real + 1.0;
      var ycoord := y as real + blockHeight + 0.014;
      var zmin := z as real + 0.0;
      var zmax := z as real + 1.0;

      var c0, c1, c2 := Vertex(xmax, ycoord, zmax, umax, vmax), Vertex(xmax, ycoord, zmin, umax, vmin),
                        Vertex(xmin, ycoord, zmin, umin, vmin);
      var c3, c4, c5 := Vertex(xmax, ycoord, zmax, umax, vmax), Vertex(xmin, ycoord, zmin, umin, vmin),
                        Vertex(xmin, ycoord, zmax, umin, vmax);
      assert [c0, c1, c2] + [c3, c4, c5] == TileQuad(x, y, z, blockHeight, textureX, textureY);
      ghost var before := added;
      AddTriangle(c0, c1, c2);
      AddTriangle(c3, c4, c5);
      AppendAssoc(before, [c0, c1, c2], [c3, c4, c5]);
    }

    /**
     * `addOverlay`: appends the quad of the block at (x, y, z). When the
     * arrays have no room for six more vertices nothing is written and
     * `ok` is false (the source runs past the array end and throws).
     */
    method AddOverlay(x: int, y: int, z: int, blockHeight: real, tex: int) returns (ok: bool)
      requires Valid() && IsInt32(tex)
      modifies vertexArray, texcoordArray, this`vertexArrayIndex, this`texcoordArrayIndex, this`added, this`overlays
      ensures Valid()
      ensures ok <==> |old(added)| + 6 <= slots
      ensures ok ==> added == old(added) + QuadCorners(x, y, z, blockHeight, tex) && overlays == old(overlays) + 1
      ensures !ok ==> added == old(added) && overlays == old(overlays)
    {
      if vertexArrayIndex + 18 > vertexArray.Length || texcoordArrayIndex + 12 > texcoordArray.Length {
        return false;
      }
      var textureX := TextureX(tex) as real;
      var textureY := TextureY(tex) as real;
      WriteQuad(x, y, z, blockHeight, textureX, textureY);
      overlays := overlays + 1;
      ok := true;
    }

    /**
     * `stopGenerate`: the buffers' limits become the filled lengths, their
     * contents the arrays' filled prefixes, the draw count the number of
     * vertices added, and an upload is due.
     */
    method StopGenerate()
      requires Valid()
      modifies vertexBuffer, texcoordBuffer, this`vertexLimit, this`texcoordLimit, this`vertices, this`needUpload
      ensures Valid()
      ensures vertexBuffer[..vertexLimit] == Positions(added) && texcoordBuffer[..texcoordLimit] == TexCoords(added)
      ensures vertices == |added| && needUpload
    {
      vertexLimit := vertexArrayIndex;
      forall i | 0 <= i < vertexArrayIndex {
        vertexBuffer[i] := vertexArray[i];
      }
      texcoordLimit := texcoordArrayIndex;
      forall i | 0 <= i < texcoordArrayIndex {
        texcoordBuffer[i] := texcoordArray[i];
      }
      assert vertexBuffer[..vertexLimit] == vertexArray[..vertexArrayIndex];
      assert texcoordBuffer[..texcoordLimit] == texcoordArray[..texcoordArrayIndex];
      VertexCountExact(added);
      vertices := VertexCount(vertexArrayIndex);
      needUpload := true;
    }

    /** `uploadBuffers`: the GL buffer objects receive the buffers' contents up to their limits. */
    method UploadBuffers()
      requires Valid()
      modifies this`uploadedVertices, this`uploadedTexcoords, this`needUpload
      ensures uploadedVertices == vertexBuffer[..vertexLimit] && uploadedTexcoords == texcoordBuffer[..texcoordLimit]
      ensures !needUpload
    {
      uploadedVertices := vertexBuffer[..vertexLimit];
      uploadedTexcoords := texcoordBuffer[..texcoordLimit];
      needUpload := false;
    }

    /** `getCacheSize`: the position floats over three, which is six per overlay. */
    method GetCacheSize() returns (n: int)
      requires Valid()
      ensures n == |added| && n == 6 * overlays
    {
      n := Div(vertexArrayIndex, 3);
    }

    /**
     * `render`: uploads when an upload is due, then draws `vertices`
     * vertices unless there are none; `drawn` is the count handed to
     * `glDrawArrays` (0 when nothing is drawn). After a pass and its upload
     * the draw covers exactly the vertices of the pass.
     */
    method Render() returns (drawn: nat)
      requires Valid()
      modifies this`uploadedVertices, this`uploadedTexcoords, this`needUpload
      ensures !needUpload
      ensures old(needUpload) ==>
        uploadedVertices == vertexBuffer[..vertexLimit] && uploadedTexcoords == texcoordBuffer[..texcoordLimit]
      ensures !old(needUpload) ==>
        uploadedVertices == old(uploadedVertices) && uploadedTexcoords == old(uploadedTexcoords)
      ensures drawn == vertices
      ensures vertices == |added| && uploadedVertices == Positions(added) ==>
        3 * drawn == |uploadedVertices|
    {
      if needUpload {
        UploadBuffers();
      }
      if vertices == 0 {
        return 0;
      }
      VertexCountExact(added);
      drawn := vertices;
    }
  }
}
