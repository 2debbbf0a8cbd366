/**
 * The geometry both VBO renderers emit for one overlay: the top face of the
 * block as two triangles, six vertices with a texture coordinate each, and
 * the flat float layouts the vertex arrays store them in. Floats are reals
 * here; the `float` rounding of the source is not modelled.
 */
module OverlayQuad {
  import opened JavaInt
  import opened Seqs
  import opened Atlas

  /** A vertex of the face: position and atlas coordinate. */
  datatype Vertex = Vertex(x: real, y: real, z: real, u: real, v: real)

  /**
   * `addOverlay`'s six vertices for the block at (x, y, z), in the order the
   * two triangles are written, textured with the tile of `tex`.
   */
  function QuadCorners(x: int, y: int, z: int, blockHeight: real, tex: int): seq<Vertex>
    requires IsInt32(tex)
  {
    TileQuad(x, y, z, blockHeight, TextureX(tex) as real, TextureY(tex) as real)
  }

  /** The same six vertices for the tile whose top-left pixel is (textureX, textureY). */
  function TileQuad(x: int, y: int, z: int, blockHeight: real, textureX: real, textureY: real): seq<Vertex> {
    var umin, umax := (textureX + 0.0 * 16.0) / 256.0, (textureX + 1.0 * 16.0 - 0.01) / 256.0;
    var vmin, vmax := (textureY + 0.0 * 16.0) / 256.0, (textureY + 1.0 * 16.0 - 0.01) / 256.0;
    var xmin, xmax := x as real + 0.0, x as real + 1.0;
    var yc := y as real + blockHeight + 0.014;
    var zmin, zmax := z as real + 0.0, z as real + 1.0;
    [Vertex(xmax, yc, zmax, umax, vmax), Vertex(xmax, yc, zmin, umax, vmin), Vertex(xmin, yc, zmin, umin, vmin)]
    + [Vertex(xmax, yc, zmax, umax, vmax), Vertex(xmin, yc, zmin, umin, vmin), Vertex(xmin, yc, zmax, umin, vmax)]
  }

  /**
   * The quad is the top face of the block: the triangles (max,max) (max,min)
   * (min,min) and (max,max) (min,min) (min,max) share a diagonal and cover
   * the four corners of the unit square, all 0.014 above the face height,
   * with the tile of `tex` mapped onto the square (the far edge pulled in
   * by 0.01 pixel).
   */
  lemma QuadCornersShape(x: int, y: int, z: int, blockHeight: real, tex: int)
    requires IsInt32(tex)
    ensures var q := QuadCorners(x, y, z, blockHeight, tex);
      && |q| == 6
      && q[0] == q[3] && q[2] == q[4]
      && (forall i :: 0 <= i < 6 ==> q[i].y == y as real + blockHeight + 0.014)
      && {(q[0].x, q[0].z), (q[1].x, q[1].z), (q[2].x, q[2].z), (q[5].x, q[5].z)}
         == {(x as real, z as real), (x as real + 1.0, z as real), (x as real, z as real + 1.0),
             (x as real + 1.0, z as real + 1.0)}
      && (forall i :: 0 <= i < 6 ==>
            q[i].u == (TextureX(tex) as real + 15.99 * (q[i].x - x as real)) / 256.0 &&
            q[i].v == (TextureY(tex) as real + 15.99 * (q[i].z - z as real)) / 256.0)
  {
    TileQuadShape(x, y, z, blockHeight, TextureX(tex) as real, TextureY(tex) as real);
  }

  /** The shape of a quad for any tile position. */
  lemma TileQuadShape(x: int, y: int, z: int, blockHeight: real, textureX: real, textureY: real)
    ensures var q := TileQuad(x, y, z, blockHeight, textureX, textureY);
      && |q| == 6
      && q[0] == q[3] && q[2] == q[4]
      && (forall i :: 0 <= i < 6 ==> q[i].y == y as real + blockHeight + 0.014)
      && {(q[0].x, q[0].z), (q[1].x, q[1].z), (q[2].x, q[2].z), (q[5].x, q[5].z)}
         == {(x as real, z as real), (x as real + 1.0, z as real), (x as real, z as real + 1.0),
             (x as real + 1.0, z as real + 1.0)}
      && (forall i :: 0 <= i < 6 ==>
            q[i].u == (textureX + 15.99 * (q[i].x - x as real)) / 256.0 &&
            q[i].v == (textureY + 15.99 * (q[i].z - z as real)) / 256.0)
  {
  }

  /** The vertex array layout: x, y, z of each vertex in turn. */
  function Positions(vs: seq<Vertex>): seq<real> {
    if |vs| == 0 then [] else [vs[0].x, vs[0].y, vs[0].z] + Positions(vs[1..])
  }

  /** The texture-coordinate array layout: u, v of each vertex in turn. */
  function TexCoords(vs: seq<Vertex>): seq<real> {
    if |vs| == 0 then [] else [vs[0].u, vs[0].v] + TexCoords(vs[1..])
  }

  /** The interleaved layout: x, y, z, u, v of each vertex in turn. */
  function Interleaved(vs: seq<Vertex>): seq<real> {
    if |vs| == 0 then [] else [vs[0].x, vs[0].y, vs[0].z, vs[0].u, vs[0].v] + Interleaved(vs[1..])
  }

  /** Each layout takes a fixed number of floats per vertex, and appending vertices appends floats. */
  lemma {:induction false} LayoutsAppend(a: seq<Vertex>, b: seq<Vertex>)
    ensures |Positions(a)| == 3 * |a| && |TexCoords(a)| == 2 * |a| && |Interleaved(a)| == 5 * |a|
    ensures Positions(a + b) == Positions(a) + Positions(b)
    ensures TexCoords(a + b) == TexCoords(a) + TexCoords(b)
    ensures Interleaved(a + b) == Interleaved(a) + Interleaved(b)
    decreases |a|
  {
    if |a| > 0 {
      LayoutsAppend(a[1..], b);
      assert (a + b)[1..] == a[1..] + b;
      assert (a + b)[0] == a[0];
      var h := [a[0].x, a[0].y, a[0].z];
      assert Positions(a + b) == h + (Positions(a[1..]) + Positions(b));
      assert h + (Positions(a[1..]) + Positions(b)) == (h + Positions(a[1..])) + Positions(b);
      var t := [a[0].u, a[0].v];
      assert TexCoords(a + b) == t + (TexCoords(a[1..]) + TexCoords(b));
      assert t + (TexCoords(a[1..]) + TexCoords(b)) == (t + TexCoords(a[1..])) + TexCoords(b);
      var n := [a[0].x, a[0].y, a[0].z, a[0].u, a[0].v];
      assert Interleaved(a + b) == n + (Interleaved(a[1..]) + Interleaved(b));
      assert n + (Interleaved(a[1..]) + Interleaved(b)) == (n + Interleaved(a[1..])) + Interleaved(b);
    } else {
      assert a + b == b;
    }
  }

  /** Vertex i is read back from floats 3i to 3i + 2 of the vertex layout. */
  lemma {:induction false} PositionsAt(vs: seq<Vertex>, i: int)
    requires 0 <= i < |vs|
    ensures |Positions(vs)| == 3 * |vs|
    ensures Positions(vs)[3 * i] == vs[i].x && Positions(vs)[3 * i + 1] == vs[i].y
    ensures Positions(vs)[3 * i + 2] == vs[i].z
    decreases i
  {
    LayoutsAppend(vs, []);
    if i > 0 {
      PositionsAt(vs[1..], i - 1);
      LayoutsAppend(vs[1..], []);
    }
  }

  /** Vertex i is read back from floats 5i to 5i + 4 of the interleaved layout. */
  lemma {:induction false} InterleavedAt(vs: seq<Vertex>, i: int)
    requires 0 <= i < |vs|
    ensures |Interleaved(vs)| == 5 * |vs|
    ensures Interleaved(vs)[5 * i] == vs[i].x && Interleaved(vs)[5 * i + 1] == vs[i].y
    ensures Interleaved(vs)[5 * i + 2] == vs[i].z
    ensures Interleaved(vs)[5 * i + 3] == vs[i].u && Interleaved(vs)[5 * i + 4] == vs[i].v
    decreases i
  {
    LayoutsAppend(vs, []);
    if i > 0 {
      InterleavedAt(vs[1..], i - 1);
      LayoutsAppend(vs[1..], []);
    }
  }
}
