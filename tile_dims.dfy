/**
 * Tile placement (`getTilePos`) and the drawing dimensions of a tile
 * (`getDrawDimsForTile`): edge, wall and height coordinates, and the door
 * cut-out of its left and top walls.
 */
module TileDims {
  import opened Wrappers
  import opened BuildingModel

  /** The door cut-out of a tile's left wall, which runs north-south. */
  datatype LeftPortal = LeftPortal(
    portalTop: real, portalBottom: real, portalNorth: real, portalSouth: real,
    hasBottom: bool, hasTop: bool, hasNorth: bool, hasSouth: bool)

  /** The door cut-out of a tile's top wall, which runs east-west. */
  datatype TopPortal = TopPortal(
    portalTop: real, portalBottom: real, portalLeft: real, portalRight: real,
    hasBottom: bool, hasTop: bool, hasWest: bool, hasEast: bool)

  /**
   * The drawing dimensions of a tile: its corner (x, z), the pitch s and wall
   * thickness wt, edge coordinates x1 x2 z1 z2, wall coordinates (inner `i` and
   * outer `o`), the floor top, floor bottom and wall top heights, and door info.
   */
  datatype DrawDims = DrawDims(
    tile: Tile,
    x: real, z: real, s: real, wt: real,
    x1: real, x2: real, z1: real, z2: real,
    x1i: real, x1o: real, x2i: real, x2o: real,
    z1i: real, z1o: real, z2i: real, z2o: real,
    top: real, bottom: real, wallTop: real,
    leftPortal: Option<LeftPortal>,
    topPortal: Option<TopPortal>)

  function Min(a: real, b: real): real { if a <= b then a else b }
  function Max(a: real, b: real): real { if a >= b then a else b }

  /**
   * n times p, by repeated addition. Grid coordinates are a half-integer number of
   * pitches from the centre; this keeps that product out of the solver's
   * non-linear arithmetic.
   */
  function Times(n: int, p: real): real
    decreases if n < 0 then -n else n
  {
    if n == 0 then 0.0 else if n > 0 then Times(n - 1, p) + p else Times(n + 1, p) - p
  }

  lemma {:induction false} TimesIsProduct(n: int, p: real)
    ensures Times(n, p) == n as real * p
    decreases if n < 0 then -n else n
  {
    if n > 0 {
      TimesIsProduct(n - 1, p);
      assert (n - 1) as real * p + p == n as real * p;
    } else if n < 0 {
      TimesIsProduct(n + 1, p);
      assert (n + 1) as real * p - p == n as real * p;
    }
  }

  /**
   * `(i - w / 2) * pitch` for grid index i of a building w tiles wide:
   * the offset of grid line i from the building's centre line.
   */
  function GridOffset(i: int, w: int, pitch: real): real
  {
    Times(2 * i - w, pitch) / 2.0
  }

  lemma GridOffsetIsProduct(i: int, w: int, pitch: real)
    ensures GridOffset(i, w, pitch) == (i as real - w as real / 2.0) * pitch
  {
    var n := 2 * i - w;
    var y := i as real - w as real / 2.0;
    TimesIsProduct(n, pitch);
    assert n as real == 2.0 * y;
    assert n as real * pitch == 2.0 * (y * pitch);
  }

  /** The outer corner of a tile in world coordinates (`getTilePos`). */
  function TilePos(b: Building, tile: Tile): (real, real)
  {
    var wt, ts := b.wallThickness, b.tileSize;
    (GridOffset(tile.x, b.width, ts + wt) - ts * 0.5 - wt,
     GridOffset(tile.y, b.height, ts + wt) - ts * 0.5 - wt)
  }

  /** Neighbouring tiles sit one pitch (tile size plus wall thickness) apart. */
  lemma {:induction false} TilePosPitch(b: Building, t: Tile, t': Tile)
    requires t'.x == t.x + 1 && t'.y == t.y
    ensures TilePos(b, t').0 == TilePos(b, t).0 + (b.tileSize + b.wallThickness)
    ensures TilePos(b, t').1 == TilePos(b, t).1
  {
    var p := b.tileSize + b.wallThickness;
    GridOffsetIsProduct(t.x, b.width, p);
    GridOffsetIsProduct(t'.x, b.width, p);
    var a := t.x as real - b.width as real / 2.0;
    assert (a + 1.0) * p == a * p + p;
  }

  /** The door cut-out of a left wall; `portalBottom` is `max(bottom, bottom)` as written. */
  function LeftPortalFor(bottom: real, wallTop: real, z1: real, z2: real): LeftPortal
  {
    var portalTop := Min(wallTop, wallTop - 0.6);
    var portalBottom := Max(bottom, bottom);
    var portalNorth := Max(z1, z1 + 0.2);
    var portalSouth := Min(z2, z2 - 0.2);
    LeftPortal(portalTop, portalBottom, portalNorth, portalSouth,
               portalBottom != bottom, portalTop != wallTop,
               portalNorth != z1, portalSouth != z2)
  }

  /**
   * The door cut-out of a top wall. As written, `hasWest` and `hasEast` compare
   * the never-assigned `portalWest` and `portalEast` (JavaScript `undefined`)
   * with x1 and x2, which is always unequal.
   */
  function TopPortalFor(bottom: real, wallTop: real, x1: real, x2: real): TopPortal
  {
    var portalTop := Min(wallTop, wallTop - 0.6);
    var portalBottom := Max(bottom, bottom);
    var portalLeft := Max(x1, x1 + 0.2);
    var portalRight := Min(x2, x2 - 0.2);
    var portalWest: Option<real> := None;
    var portalEast: Option<real> := None;
    TopPortal(portalTop, portalBottom, portalLeft, portalRight,
              portalBottom != bottom, portalTop != wallTop,
              portalWest != Some(x1), portalEast != Some(x2))
  }

  predicate HasPortal(w: Option<Wall>)
  {
    w.Some? && w.value.hasPortal
  }

  /** `getDrawDimsForTile` for a tile of level `l`. */
  function DimsFor(b: Building, l: Level, tile: Tile): (d: DrawDims)
    ensures d.tile == tile && (d.x, d.z) == TilePos(b, tile)
    ensures d.leftPortal.Some? <==> HasPortal(tile.left)
    ensures d.topPortal.Some? <==> HasPortal(tile.top)
  {
    var wt, ts := b.wallThickness, b.tileSize;
    var s := wt + ts;
    var (x, z) := TilePos(b, tile);
    var wth := wt * 0.5;
    var x1, x2, z1, z2 := x + wth, x + s + wth, z + wth, z + s + wth;
    var top, bottom, wallTop := l.groundLevel, l.ceilingHeight, l.ceilingLevel;
    DrawDims(
      tile, x, z, s, wt,
      x1, x2, z1, z2,
      x + wt, x, x + ts, x + s + wt,
      z + wt, z, z + ts, z + s + wt,
      top, bottom, wallTop,
      if HasPortal(tile.left) then Some(LeftPortalFor(bottom, wallTop, z1, z2)) else None,
      if HasPortal(tile.top) then Some(TopPortalFor(bottom, wallTop, x1, x2)) else None)
  }

  /**
   * Tiles stitch together: the edge span of one tile ends where its east
   * neighbour's begins, and its wall box ends at the neighbour's inner wall face,
   * so a run's quad from the first tile's edge to the last tile's edge has no gaps.
   */
  lemma DimsStitch(b: Building, l: Level, t: Tile, t': Tile)
    requires t'.x == t.x + 1 && t'.y == t.y
    ensures DimsFor(b, l, t).x2 == DimsFor(b, l, t').x1
    ensures DimsFor(b, l, t).x2o == DimsFor(b, l, t').x1i
    ensures DimsFor(b, l, t').x1o == DimsFor(b, l, t).x1o + DimsFor(b, l, t).s
  {
    TilePosPitch(b, t, t');
  }

  /**
   * The door flags as written: the cut-out never has a bottom strip (the door
   * reaches the floor), always has a top strip and both side strips, and the
   * top wall's `hasWest`/`hasEast`, though computed from unassigned fields,
   * agree with comparing the computed door edges to the wall edges.
   */
  lemma PortalFlagsAsWritten(b: Building, l: Level, tile: Tile)
    ensures var d := DimsFor(b, l, tile);
      d.leftPortal.Some? ==>
        var p := d.leftPortal.value;
        && !p.hasBottom && p.hasTop && p.hasNorth && p.hasSouth
        && p.portalBottom == d.bottom && p.portalTop == d.wallTop - 0.6
        && p.portalNorth == d.z1 + 0.2 && p.portalSouth == d.z2 - 0.2
    ensures var d := DimsFor(b, l, tile);
      d.topPortal.Some? ==>
        var p := d.topPortal.value;
        && !p.hasBottom && p.hasTop && p.hasWest && p.hasEast
        && p.hasWest == (p.portalLeft != d.x1) && p.hasEast == (p.portalRight != d.x2)
        && p.portalLeft == d.x1 + 0.2 && p.portalRight == d.x2 - 0.2
  {
  }
}
