/**
 * The pair-sampling generator shared by both versions of `LightLevelOverlay`
 * (`Position` and `generate`). Around the player it walks every column
 * (x, z) with offsets in [-d, d), and in each column samples voxel pairs
 * (y, y + 1) for y = -d, -d + 2, ... below d. A voxel is recorded when it is
 * spawnable and the voxel above it is not; the second voxel of a pair is
 * recorded one pair late, through the `previous` flag.
 *
 * As written, `previous` is set once before all three loops and never reset,
 * so the first pair of a column reads the flag the previous column left
 * behind (`ScanPairsAsWritten`, `CarriedPreviousCounterexample`). The model
 * uses the per-column reset (`ScanPairs`), and proves that it records exactly
 * the surfaces of the scanned voxels (`ScanIsSurfaces`).
 */
module PairScan {
  import opened JavaInt
  import opened Seqs

  /** `Position`: a block position compared by value. */
  datatype Position = Position(x: int, y: int, z: int)

  /** `new Position()`: the field defaults. */
  const Origin: Position := Position(0, 0, 0)

  /** `new Position(o, dx, dy, dz)`: the position displaced by (dx, dy, dz). */
  function Offset(o: Position, dx: int, dy: int, dz: int): (p: Position)
    ensures p.x - o.x == dx && p.y - o.y == dy && p.z - o.z == dz
  {
    Position(o.x + dx, o.y + dy, o.z + dz)
  }

  /** Displacing and displacing back gives the original position. */
  lemma OffsetRoundTrip(o: Position, dx: int, dy: int, dz: int)
    ensures Offset(Offset(o, dx, dy, dz), -dx, -dy, -dz) == o
  {
  }

  /**
   * `equals`: the three coordinates compared one by one, which is exactly
   * value equality of positions.
   */
  function Equals(a: Position, b: Position): (r: bool)
    ensures r <==> a == b
  {
    if a.x != b.x then false
    else if a.y != b.y then false
    else a.z == b.z
  }

  /** `c ^ (c >>> 16)`: folds the upper half of a coordinate into its lower half. */
  function Spread(c: int): int {
    Xor(c, UnsignedShiftRight16(c))
  }

  /** `hashCode`: `31 * (31 * spread(x) + spread(y)) + spread(z)` with Java `int` wrap-around. */
  function HashCode(p: Position): (h: int)
    ensures IsInt32(h)
  {
    Wrap(31 * Wrap(31 * Spread(p.x) + Spread(p.y)) + Spread(p.z))
  }

  /** The `equals`/`hashCode` contract: equal positions hash alike. */
  lemma EqualsHashCode(a: Position, b: Position)
    requires Equals(a, b)
    ensures HashCode(a) == HashCode(b)
  {
  }

  /** The spreading step loses nothing: XOR-ing the upper half in again restores the coordinate. */
  lemma SpreadInvertible(c: int)
    ensures Xor(Spread(c), UnsignedShiftRight16(c)) == c
  {
    XorTwice(c, UnsignedShiftRight16(c));
  }

  /** The sample at offset (x, y, z) from the player. */
  function Sample(p: Position, x: int, y: int, z: int): Position {
    Position(p.x + x, p.y + y, p.z + z)
  }

  /**
   * What one pair contributes, as the loop body decides: the voxel itself
   * when it is spawnable and the one above is not, otherwise the voxel below
   * when that one was spawnable (`previous`) and this one is not.
   */
  function PairEmit(sp: Position -> bool, p: Position, x: int, y: int, z: int, previous: bool)
    : (e: seq<Position>)
    ensures |e| <= 1
    ensures |e| == 1 ==> e[0] == Sample(p, x, y, z) || (e[0] == Sample(p, x, y - 1, z) && previous)
    ensures e == [Sample(p, x, y, z)] <==> sp(Sample(p, x, y, z)) && !sp(Sample(p, x, y + 1, z))
  {
    var first := sp(Sample(p, x, y, z));
    var second := sp(Sample(p, x, y + 1, z));
    if first && !second then [Sample(p, x, y, z)]
    else if !first && previous then [Sample(p, x, y - 1, z)]
    else []
  }

  /**
   * The three loops of `generate` as one fold from sample (x, z, y) on, in
   * loop order. With `reset` the flag is cleared at the end of each column;
   * without it the flag is carried into the next column as the source does.
   */
  function ScanFrom(sp: Position -> bool, p: Position, d: int, reset: bool, x: int, z: int, y: int,
                    previous: bool): seq<Position>
    decreases d - x, d - z, d - y
  {
    if x >= d then []
    else if z >= d then ScanFrom(sp, p, d, reset, x + 1, -d, -d, previous)
    else if y >= d then ScanFrom(sp, p, d, reset, x, z + 1, -d, if reset then false else previous)
    else PairEmit(sp, p, x, y, z, previous) + ScanFrom(sp, p, d, reset, x, z, y + 2, sp(Sample(p, x, y + 1, z)))
  }

  /** One pair of the fold, unfolded. */
  lemma ScanFromPair(sp: Position -> bool, p: Position, d: int, reset: bool, x: int, z: int, y: int,
                     previous: bool)
    requires x < d && z < d && y < d
    ensures ScanFrom(sp, p, d, reset, x, z, y, previous)
         == PairEmit(sp, p, x, y, z, previous) + ScanFrom(sp, p, d, reset, x, z, y + 2, sp(Sample(p, x, y + 1, z)))
  {
  }

  /** The end of a column, unfolded. */
  lemma ScanFromColumnEnd(sp: Position -> bool, p: Position, d: int, reset: bool, x: int, z: int, y: int,
                          previous: bool)
    requires x < d && z < d && y >= d
    ensures ScanFrom(sp, p, d, reset, x, z, y, previous)
         == ScanFrom(sp, p, d, reset, x, z + 1, -d, if reset then false else previous)
  {
  }

  /** The end of a row of columns, unfolded. */
  lemma ScanFromRowEnd(sp: Position -> bool, p: Position, d: int, reset: bool, x: int, z: int, previous: bool)
    requires x < d && z >= d
    ensures ScanFrom(sp, p, d, reset, x, z, -d, previous) == ScanFrom(sp, p, d, reset, x + 1, -d, -d, previous)
  {
  }

  /** A whole pass, starting with `previous == false`. */
  function Scan(sp: Position -> bool, p: Position, d: int, reset: bool): seq<Position> {
    ScanFrom(sp, p, d, reset, -d, -d, -d, false)
  }

  /**
   * The reference definition: in column (x, z), every voxel v in [y, d - 1)
   * that is spawnable under a non-spawnable voxel, bottom up. These are the
   * voxels whose surface the pairs can see: the top voxel d - 1 of the scan
   * has no sampled voxel above it.
   */
  function Surfaces(sp: Position -> bool, p: Position, d: int, x: int, z: int, v: int): seq<Position>
    decreases d - v
  {
    if v >= d - 1 then []
    else (if sp(Sample(p, x, v, z)) && !sp(Sample(p, x, v + 1, z)) then [Sample(p, x, v, z)] else [])
         + Surfaces(sp, p, d, x, z, v + 1)
  }

  /** The surfaces of every column from (x, z) on, in loop order. */
  function AllSurfaces(sp: Position -> bool, p: Position, d: int, x: int, z: int): seq<Position>
    decreases d - x, d - z
  {
    if x >= d then []
    else if z >= d then AllSurfaces(sp, p, d, x + 1, -d)
    else Surfaces(sp, p, d, x, z, -d) + AllSurfaces(sp, p, d, x, z + 1)
  }

  /** The voxel below pair y that is still owed to the output when `previous` is set. */
  function Owed(sp: Position -> bool, p: Position, d: int, x: int, z: int, y: int, previous: bool): seq<Position> {
    if previous && y < d && !sp(Sample(p, x, y, z)) then [Sample(p, x, y - 1, z)] else []
  }

  lemma {:induction false} ColumnStartIsSurfaces(sp: Position -> bool, p: Position, d: int, x: int, z: int)
    requires -d <= z
    ensures ScanFrom(sp, p, d, true, x, z, -d, false) == AllSurfaces(sp, p, d, x, z)
    decreases d - x, d - z, d + d, 3
  {
    if x >= d {
      assert ScanFrom(sp, p, d, true, x, z, -d, false) == [] == AllSurfaces(sp, p, d, x, z);
    } else if z >= d {
      RowEndIsSurfaces(sp, p, d, x, z);
    } else {
      ColumnIsSurfaces(sp, p, d, x, z);
    }
  }

  /** Past the last column of a row, both folds move on to the next row. */
  lemma {:induction false} RowEndIsSurfaces(sp: Position -> bool, p: Position, d: int, x: int, z: int)
    requires x < d && z >= d
    ensures ScanFrom(sp, p, d, true, x, z, -d, false) == AllSurfaces(sp, p, d, x, z)
    decreases d - x, d - z, d + d, 1
  {
    ScanFromRowEnd(sp, p, d, true, x, z, false);
    AllSurfacesRowEnd(sp, p, d, x, z);
    ColumnStartIsSurfaces(sp, p, d, x + 1, -d);
  }

  /** The end of a row of reference columns, unfolded. */
  lemma AllSurfacesRowEnd(sp: Position -> bool, p: Position, d: int, x: int, z: int)
    requires x < d && z >= d
    ensures AllSurfaces(sp, p, d, x, z) == AllSurfaces(sp, p, d, x + 1, -d)
  {
  }

  /** A column entered with a clear flag owes nothing: its surfaces come first, then the later columns'. */
  lemma {:induction false} ColumnIsSurfaces(sp: Position -> bool, p: Position, d: int, x: int, z: int)
    requires x < d && -d <= z < d
    ensures ScanFrom(sp, p, d, true, x, z, -d, false) == AllSurfaces(sp, p, d, x, z)
    decreases d - x, d - z, d + d, 2
  {
    var column, later := Surfaces(sp, p, d, x, z, -d), AllSurfaces(sp, p, d, x, z + 1);
    InColumnIsSurfaces(sp, p, d, x, z, -d, false);
    assert Owed(sp, p, d, x, z, -d, false) == [];
    AppendEmpty(column);
    assert AllSurfaces(sp, p, d, x, z) == column + later;
  }

  /**
   * From pair y of column (x, z) on, the reset scan yields what is owed,
   * then the surfaces of the rest of this column, then those of the later
   * columns, provided `previous` says whether the voxel below y is spawnable.
   */
  lemma {:induction false} InColumnIsSurfaces(sp: Position -> bool, p: Position, d: int, x: int, z: int,
                                              y: int, previous: bool)
    requires x < d && -d <= z < d
    requires -d <= y <= d && (d - y) % 2 == 0
    requires previous ==> y > -d && sp(Sample(p, x, y - 1, z))
    requires y > -d && sp(Sample(p, x, y - 1, z)) ==> previous
    ensures ScanFrom(sp, p, d, true, x, z, y, previous)
         == Owed(sp, p, d, x, z, y, previous) + Surfaces(sp, p, d, x, z, y) + AllSurfaces(sp, p, d, x, z + 1)
    decreases d - x, d - z, d - y, 1
  {
    if y >= d {
      ColumnEndIsSurfaces(sp, p, d, x, z, y, previous);
    } else {
      PairIsSurfaces(sp, p, d, x, z, y, previous);
    }
  }

  /** Past the top pair nothing is owed and no surface is left: the later columns follow. */
  lemma {:induction false} ColumnEndIsSurfaces(sp: Position -> bool, p: Position, d: int, x: int, z: int,
                                               y: int, previous: bool)
    requires x < d && -d <= z < d && y >= d
    ensures ScanFrom(sp, p, d, true, x, z, y, previous)
         == Owed(sp, p, d, x, z, y, previous) + Surfaces(sp, p, d, x, z, y) + AllSurfaces(sp, p, d, x, z + 1)
    decreases d - x, d - z, d - y, 0
  {
    ScanFromColumnEnd(sp, p, d, true, x, z, y, previous);
    ColumnStartIsSurfaces(sp, p, d, x, z + 1);
    assert Owed(sp, p, d, x, z, y, previous) == [] && Surfaces(sp, p, d, x, z, y) == [];
    AppendEmpties(Owed(sp, p, d, x, z, y, previous), Surfaces(sp, p, d, x, z, y), AllSurfaces(sp, p, d, x, z + 1));
  }

  /**
   * One pair: what it emits is what was owed and the lower voxel's surface;
   * the upper voxel's surface becomes what the next pair owes.
   */
  lemma {:induction false} PairIsSurfaces(sp: Position -> bool, p: Position, d: int, x: int, z: int,
                                          y: int, previous: bool)
    requires x < d && -d <= z < d
    requires -d <= y < d && (d - y) % 2 == 0
    requires previous ==> y > -d && sp(Sample(p, x, y - 1, z))
    requires y > -d && sp(Sample(p, x, y - 1, z)) ==> previous
    ensures ScanFrom(sp, p, d, true, x, z, y, previous)
         == Owed(sp, p, d, x, z, y, previous) + Surfaces(sp, p, d, x, z, y) + AllSurfaces(sp, p, d, x, z + 1)
    decreases d - x, d - z, d - y, 0
  {
    var second := sp(Sample(p, x, y + 1, z));
    ScanFromPair(sp, p, d, true, x, z, y, previous);
    InColumnIsSurfaces(sp, p, d, x, z, y + 2, second);
    var owed := Owed(sp, p, d, x, z, y, previous);
    var here := if sp(Sample(p, x, y, z)) && !second then [Sample(p, x, y, z)] else [];
    var above := Owed(sp, p, d, x, z, y + 2, second);
    var rest := Surfaces(sp, p, d, x, z, y + 2);
    var later := AllSurfaces(sp, p, d, x, z + 1);
    PairEmitOwed(sp, p, d, x, z, y, previous);
    SurfacesPair(sp, p, d, x, z, y);
    AppendAssoc4(owed, here, above + rest, later);
  }

  /** What a pair emits is what was owed, then the lower voxel's surface. */
  lemma PairEmitOwed(sp: Position -> bool, p: Position, d: int, x: int, z: int, y: int, previous: bool)
    requires y < d
    ensures PairEmit(sp, p, x, y, z, previous)
         == Owed(sp, p, d, x, z, y, previous)
            + (if sp(Sample(p, x, y, z)) && !sp(Sample(p, x, y + 1, z)) then [Sample(p, x, y, z)] else [])
  {
  }

  /** Two voxels of the reference column, unfolded: the second one's surface is what the next pair owes. */
  lemma SurfacesPair(sp: Position -> bool, p: Position, d: int, x: int, z: int, y: int)
    requires y < d && (d - y) % 2 == 0
    ensures Surfaces(sp, p, d, x, z, y)
         == (if sp(Sample(p, x, y, z)) && !sp(Sample(p, x, y + 1, z)) then [Sample(p, x, y, z)] else [])
            + (Owed(sp, p, d, x, z, y + 2, sp(Sample(p, x, y + 1, z))) + Surfaces(sp, p, d, x, z, y + 2))
  {
    if y + 2 < d {
      assert Surfaces(sp, p, d, x, z, y + 1)
          == Owed(sp, p, d, x, z, y + 2, sp(Sample(p, x, y + 1, z))) + Surfaces(sp, p, d, x, z, y + 2);
    } else {
      assert Surfaces(sp, p, d, x, z, y + 1) == [];
      assert Surfaces(sp, p, d, x, z, y + 2) == [];
    }
  }

  /** With the per-column reset, a pass records exactly the surfaces of the scanned voxels. */
  lemma ScanIsSurfaces(sp: Position -> bool, p: Position, d: int)
    ensures Scan(sp, p, d, true) == AllSurfaces(sp, p, d, -d, -d)
  {
    ColumnStartIsSurfaces(sp, p, d, -d, -d);
  }

  /** A record at offset (x, y, z) from the player with x, z in [-d, d) and y in [-d - 1, d). */
  predicate InBox(p: Position, d: int, q: Position) {
    -d <= q.x - p.x < d && -d - 1 <= q.y - p.y < d && -d <= q.z - p.z < d
  }

  /**
   * Both variants record only positions within x, z offsets [-d, d) and y
   * offsets [-d - 1, d): the flag can place a record one voxel below the
   * lowest sample, never further.
   */
  lemma {:induction false} ScanFromInBox(sp: Position -> bool, p: Position, d: int, reset: bool,
                                         x: int, z: int, y: int, previous: bool)
    requires -d <= x && -d <= z && -d <= y
    ensures forall q :: q in ScanFrom(sp, p, d, reset, x, z, y, previous) ==> InBox(p, d, q)
    decreases d - x, d - z, d - y
  {
    if x < d {
      if z >= d {
        ScanFromInBox(sp, p, d, reset, x + 1, -d, -d, previous);
      } else if y >= d {
        ScanFromInBox(sp, p, d, reset, x, z + 1, -d, if reset then false else previous);
      } else {
        ScanFromInBox(sp, p, d, reset, x, z, y + 2, sp(Sample(p, x, y + 1, z)));
      }
    }
  }

  lemma ScanInBox(sp: Position -> bool, p: Position, d: int, reset: bool)
    ensures forall q :: q in Scan(sp, p, d, reset) ==> InBox(p, d, q)
  {
    ScanFromInBox(sp, p, d, reset, -d, -d, -d, false);
  }

  /** The world of the counterexample: only the voxels at height 0 are spawnable. */
  predicate OnlyGround(q: Position) {
    q.y == 0
  }

  /**
   * The carried flag at work: with d = 1 and only the voxels at height 0
   * spawnable, no column has a surface among its scanned voxels, yet the
   * source's pass records three positions at height -2, each below a column
   * that follows a column whose top sample was spawnable.
   */
  lemma CarriedPreviousCounterexample()
    ensures Scan(OnlyGround, Origin, 1, false) == [Position(-1, -2, 0), Position(0, -2, -1), Position(0, -2, 0)]
    ensures Scan(OnlyGround, Origin, 1, true) == []
    ensures AllSurfaces(OnlyGround, Origin, 1, -1, -1) == []
  {
    ScanIsSurfaces(OnlyGround, Origin, 1);
    assert ScanFrom(OnlyGround, Origin, 1, false, 0, 0, -1, true) == [Position(0, -2, 0)];
    assert ScanFrom(OnlyGround, Origin, 1, false, 0, -1, -1, true) == [Position(0, -2, -1), Position(0, -2, 0)];
    assert ScanFrom(OnlyGround, Origin, 1, false, -1, 0, -1, true)
        == [Position(-1, -2, 0), Position(0, -2, -1), Position(0, -2, 0)];
    assert ScanFrom(OnlyGround, Origin, 1, true, 0, 0, -1, false) == [];
    assert ScanFrom(OnlyGround, Origin, 1, true, 0, -1, -1, false) == [];
    assert ScanFrom(OnlyGround, Origin, 1, true, -1, 0, -1, false) == [];
  }

  /**
   * The body of the y loop for pair (y, y + 1) of column (x, z): the records
   * it adds and the flag it leaves, whether the lower voxel was spawnable.
   */
  method ScanPair(sp: Position -> bool, player: Position, x: int, y: int, z: int, previous: bool)
    returns (emitted: seq<Position>, above: bool)
    ensures emitted == PairEmit(sp, player, x, y, z, previous)
    ensures above == sp(Sample(player, x, y + 1, z))
  {
    var pos := Sample(player, x, y, z);
    var first := sp(pos);
    above := sp(Offset(pos, 0, 1, 0));
    emitted := [];
    if first && !above {
      emitted := emitted + [pos];
    } else if !first && previous {
      emitted := emitted + [Offset(pos, 0, -1, 0)];
    }
  }

  /**
   * The y loop of `generate` over column (x, z), entered with flag
   * `previous`: the records of the column's pairs, in order, and the flag it
   * leaves behind. Whether the caller resets the flag between columns
   * (`reset`) only matters for the rest of the fold.
   */
  method ScanColumnPairs(sp: Position -> bool, player: Position, d: int, ghost reset: bool, x: int, z: int,
                         previous: bool) returns (pairs: seq<Position>, next: bool)
    requires x < d && z < d
    ensures ScanFrom(sp, player, d, reset, x, z, -d, previous)
         == pairs + ScanFrom(sp, player, d, reset, x, z + 1, -d, if reset then false else next)
  {
    ghost var whole := ScanFrom(sp, player, d, reset, x, z, -d, previous);
    pairs, next := [], previous;
    var y := -d;
    while y < d
      invariant pairs + ScanFrom(sp, player, d, reset, x, z, y, next) == whole
    {
      var emitted, above := ScanPair(sp, player, x, y, z, next);
      ScanFromPair(sp, player, d, reset, x, z, y, next);
      AppendAssoc(pairs, emitted, ScanFrom(sp, player, d, reset, x, z, y + 2, above));
      pairs, next := pairs + emitted, above;
      y := y + 2;
    }
    ScanFromColumnEnd(sp, player, d, reset, x, z, y, next);
  }

  /**
   * `generate`'s three loops as written: `previous` is declared once, before
   * the x loop, and each column starts from the flag the last one left. The
   * result is the carried-flag fold.
   */
  method ScanPairsAsWritten(sp: Position -> bool, player: Position, d: int) returns (found: seq<Position>)
    ensures found == Scan(sp, player, d, false)
  {
    ghost var whole := Scan(sp, player, d, false);
    found := [];
    var previous := false;
    var x := -d;
    while x < d
      invariant found + ScanFrom(sp, player, d, false, x, -d, -d, previous) == whole
    {
      var row, next := ScanRowAsWritten(sp, player, d, x, previous);
      AppendAssoc(found, row, ScanFrom(sp, player, d, false, x + 1, -d, -d, next));
      found, previous := found + row, next;
      x := x + 1;
    }
  }

  /** The z loop of `generate` as written, over row x: the flag runs on from column to column. */
  method ScanRowAsWritten(sp: Position -> bool, player: Position, d: int, x: int, previous: bool)
    returns (row: seq<Position>, next: bool)
    requires x < d
    ensures ScanFrom(sp, player, d, false, x, -d, -d, previous) == row + ScanFrom(sp, player, d, false, x + 1, -d, -d, next)
  {
    ghost var whole := ScanFrom(sp, player, d, false, x, -d, -d, previous);
    row, next := [], previous;
    var z := -d;
    while z < d
      invariant row + ScanFrom(sp, player, d, false, x, z, -d, next) == whole
    {
      var pairs, flag := ScanColumnPairs(sp, player, d, false, x, z, next);
      AppendAssoc(row, pairs, ScanFrom(sp, player, d, false, x, z + 1, -d, flag));
      row, next := row + pairs, flag;
      z := z + 1;
    }
    ScanFromRowEnd(sp, player, d, false, x, z, next);
  }

  /**
   * The same loops with `previous` declared at the start of each column,
   * which is what the pair rule needs: the result is exactly the surfaces of
   * the scanned voxels, all inside the scanned box.
   */
  method ScanPairs(sp: Position -> bool, player: Position, d: int) returns (found: seq<Position>)
    ensures found == Scan(sp, player, d, true)
    ensures found == AllSurfaces(sp, player, d, -d, -d)
    ensures forall q :: q in found ==> InBox(player, d, q)
  {
    ghost var whole := Scan(sp, player, d, true);
    found := [];
    var x := -d;
    while x < d
      invariant found + ScanFrom(sp, player, d, true, x, -d, -d, false) == whole
    {
      var row := ScanRow(sp, player, d, x);
      AppendAssoc(found, row, ScanFrom(sp, player, d, true, x + 1, -d, -d, false));
      found := found + row;
      x := x + 1;
    }
    ScanIsSurfaces(sp, player, d);
    ScanInBox(sp, player, d, true);
  }

  /** The z loop over row x with the flag declared afresh for every column. */
  method ScanRow(sp: Position -> bool, player: Position, d: int, x: int) returns (row: seq<Position>)
    requires x < d
    ensures ScanFrom(sp, player, d, true, x, -d, -d, false) == row + ScanFrom(sp, player, d, true, x + 1, -d, -d, false)
  {
    ghost var whole := ScanFrom(sp, player, d, true, x, -d, -d, false);
    row := [];
    var z := -d;
    while z < d
      invariant row + ScanFrom(sp, player, d, true, x, z, -d, false) == whole
    {
      var previous := false;
      var pairs;
      pairs, previous := ScanColumnPairs(sp, player, d, true, x, z, previous);
      AppendAssoc(row, pairs, ScanFrom(sp, player, d, true, x, z + 1, -d, false));
      row := row + pairs;
      z := z + 1;
    }
    ScanFromRowEnd(sp, player, d, true, x, z, false);
  }
}
