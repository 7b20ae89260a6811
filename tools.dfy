/**
 * The editor tools' grid arithmetic and wall edits: turning a pointer position
 * on the ground plane into a tile, a corner and the nearest wall; the straight
 * run of walls a wall drag covers; the rectangle a tile or roof drag covers;
 * filling and deleting walls and tiles; and moving the level cursor.
 */
module EditorTools {
  import opened Wrappers
  import Protocol

  function Min(a: int, b: int): int { if a <= b then a else b }
  function Max(a: int, b: int): int { if a >= b then a else b }
  function Abs(v: real): real { if v < 0.0 then -v else v }

  /** A point on the ground plane, where the pointer ray meets it. */
  datatype Point = Point(x: real, z: real)

  /** The wall of a tile the pointer is nearest to. */
  datatype ClosestWall = Top | Bottom | Left | Right

  /**
   * What `getTileFromPt` returns: the tile (`x`, `y`), the nearest grid corner
   * (`cx`, `cy`), where the wall cursor goes, and the wall nearest the pointer.
   */
  datatype TilePos = TilePos(x: int, y: int, cx: int, cy: int,
                             wallCursorX: real, wallCursorY: real, closestWall: ClosestWall)

  /** The distance between grid lines: a tile plus a wall (`wt`). */
  const WallPitch: real := 1.55

  /** Where grid line 0 lies on both axes, for a grid `tilesH` tiles wide. */
  function GridOrigin(tilesH: int): real
  {
    -WallPitch * ((tilesH + 1) + 1) as real / 2.0
  }

  /** A ground coordinate in grid units: grid line k is at k. */
  function GridCoord(v: real, tilesH: int): real
  {
    (v - GridOrigin(tilesH)) / WallPitch
  }

  /** The grid line nearest to grid coordinate `g` (rounding half up). */
  function NearestLine(g: real): int
  {
    (g + 0.5).Floor
  }

  /** How far grid coordinate `g` is from its nearest grid line. */
  function LineDistance(g: real): real
  {
    Abs(g - NearestLine(g) as real)
  }

  /** The offset from the middle of the tile: in [-0.5, 0.5), and the line distance is 0.5 less its size. */
  lemma {:induction false} CentreOffset(g: real)
    ensures -0.5 <= g - 0.5 - g.Floor as real < 0.5
    ensures LineDistance(g) == 0.5 - Abs(g - 0.5 - g.Floor as real)
    ensures g - 0.5 - g.Floor as real < 0.0 <==> NearestLine(g) == g.Floor
  {
    var f := g.Floor;
    if g - f as real < 0.5 {
      assert (g + 0.5).Floor == f;
    } else {
      assert (g + 0.5).Floor == f + 1;
    }
  }

  /**
   * `getTileFromPt`: no point gives no tile. Otherwise the tile is clamped to
   * the grid, the corner is the nearest grid line clamped from above only, and
   * the nearest wall is a top or bottom wall exactly when the point is nearer a
   * horizontal grid line than a vertical one; top (left) is chosen when the
   * nearest line is the tile's own top (left) edge, or the corner is line 0.
   */
  function GetTileFromPt(pt: Option<Point>, tilesH: int, tilesV: int): (r: Option<TilePos>)
    ensures pt.None? <==> r.None?
    ensures r.Some? ==> 0 <= r.value.x && 0 <= r.value.y && r.value.cx <= tilesH && r.value.cy <= tilesV
    ensures r.Some? && tilesH >= 1 ==> r.value.x <= tilesH - 1
    ensures r.Some? && tilesV >= 1 ==> r.value.y <= tilesV - 1
    ensures r.Some? ==>
      var gx, gz := GridCoord(pt.value.x, tilesH), GridCoord(pt.value.z, tilesH);
      && (r.value.closestWall == Top || r.value.closestWall == Bottom <==> LineDistance(gz) < LineDistance(gx))
      && (r.value.closestWall == Top || r.value.closestWall == Bottom ==>
            (r.value.closestWall == Top <==> NearestLine(gz) == gz.Floor || r.value.cy == 0))
      && (r.value.closestWall == Left || r.value.closestWall == Right ==>
            (r.value.closestWall == Left <==> NearestLine(gx) == gx.Floor || r.value.cx == 0))
  {
    if pt.None? then None
    else
      var xN, yN := GridCoord(pt.value.x, tilesH), GridCoord(pt.value.z, tilesH);
      var xF, yF := xN.Floor, yN.Floor;
      var xTile, yTile := Max(0, Min(tilesH - 1, xF)), Max(0, Min(tilesV - 1, yF));
      var xCorner, yCorner := Min(tilesH, (xN + 0.5).Floor), Min(tilesV, (yN + 0.5).Floor);
      var dcx, dcy := xN - 0.5 - xF as real, yN - 0.5 - yF as real;
      CentreOffset(xN);
      CentreOffset(yN);
      if Abs(dcx) < Abs(dcy) then
        Some(TilePos(xTile, yTile, xCorner, yCorner, xTile as real + 0.5, yCorner as real,
                     if dcy < 0.0 || yCorner == 0 then Top else Bottom))
      else
        Some(TilePos(xTile, yTile, xCorner, yCorner, xCorner as real, yTile as real + 0.5,
                     if dcx < 0.0 || xCorner == 0 then Left else Right))
  }

  /** A drag rectangle in tile coordinates. */
  datatype Rect = Rect(x1: int, y1: int, x2: int, y2: int)

  /**
   * The rectangle `fillTileArea` and `fillRoofArea` fill: spanned by the drag
   * start and the end tile, or the end tile alone when there is no drag start,
   * with its corners ordered.
   */
  function DragRect(tpos: TilePos, start: Option<TilePos>): (r: Rect)
    ensures r.x1 <= r.x2 && r.y1 <= r.y2
    ensures var s := if start.Some? then start.value else tpos;
      {r.x1, r.x2} == {tpos.x, s.x} && {r.y1, r.y2} == {tpos.y, s.y}
    ensures start.None? ==> r == Rect(tpos.x, tpos.y, tpos.x, tpos.y)
  {
    var sx := if start.Some? then start.value.x else tpos.x;
    var sy := if start.Some? then start.value.y else tpos.y;
    Rect(Min(tpos.x, sx), Min(tpos.y, sy), Max(tpos.x, sx), Max(tpos.y, sy))
  }

  /** Dragging from either end gives the same rectangle. */
  lemma DragRectSymmetric(a: TilePos, b: TilePos)
    ensures DragRect(a, Some(b)) == DragRect(b, Some(a))
  {
  }

  /**
   * The straight run a wall drag covers: along one axis from (x0, y0), `steps`
   * walls, vertical when the drag spans no more columns than rows.
   */
  datatype Walk = Walk(vertical: bool, x0: int, y0: int, steps: nat)

  /**
   * The drag from `start` (or from `end` itself when there is none) to `end`,
   * corner to corner, snapped to the axis it spans more of: it starts on the
   * start corner's row or column, at the smaller coordinate on the other axis,
   * and covers the whole span.
   */
  function WallWalk(start: Option<TilePos>, end: TilePos): (w: Walk)
    ensures var sx := if start.Some? then start.value.cx else end.cx;
      var sy := if start.Some? then start.value.cy else end.cy;
      var dx, dy := Max(end.cx, sx) - Min(end.cx, sx), Max(end.cy, sy) - Min(end.cy, sy);
      && (w.vertical <==> dx <= dy)
      && (w.vertical ==> w.x0 == sx && w.y0 == Min(end.cy, sy) && w.steps == dy
                         && w.y0 + w.steps == Max(end.cy, sy))
      && (!w.vertical ==> w.y0 == sy && w.x0 == Min(end.cx, sx) && w.steps == dx
                          && w.x0 + w.steps == Max(end.cx, sx))
  {
    var tx, ty := end.cx, end.cy;
    var sx := if start.Some? then start.value.cx else tx;
    var sy := if start.Some? then start.value.cy else ty;
    var x1, y1, x2, y2 := Min(tx, sx), Min(ty, sy), Max(tx, sx), Max(ty, sy);
    var dx, dy := x2 - x1, y2 - y1;
    if dx > dy then Walk(false, x1, sy, dx) else Walk(true, sx, y1, dy)
  }

  /** The grid corner of step i of a walk. */
  function StepX(w: Walk, i: int): int { if w.vertical then w.x0 else w.x0 + i }
  function StepY(w: Walk, i: int): int { if w.vertical then w.y0 + i else w.y0 }

  /** The coordinate a walk moves along stays within 0..tilesH (the only bound the walk checks). */
  predicate StepInRange(w: Walk, i: int, tilesH: int)
  {
    var c := if w.vertical then StepY(w, i) else StepX(w, i);
    0 <= c <= tilesH
  }

  /**
   * How many walls `getLinearWallsBetweenPts` collects: every step of the walk
   * up to the first one whose moving coordinate leaves 0..tilesH.
   */
  function WalkCount(w: Walk, tilesH: int): (n: nat)
    ensures n <= w.steps
    ensures forall i :: 0 <= i < n ==> StepInRange(w, i, tilesH)
    ensures n < w.steps ==> !StepInRange(w, n, tilesH)
  {
    var c0 := if w.vertical then w.y0 else w.x0;
    if c0 < 0 then 0 else Min(w.steps, Max(0, tilesH + 1 - c0))
  }

  /** Which of its two walls a tile holds: the one along its top edge or along its left edge. */
  datatype WallLabel = TopWall | LeftWall

  /** The editable state of a wall. */
  datatype WallState = WallState(filled: bool, hasPortal: bool, windowIndex: int,
                                 innerMaterialIndex: int, outerMaterialIndex: int)

  /**
   * `deleteWall`: a filled wall loses its window, its door and its fill and
   * keeps its materials; an unfilled wall is left alone.
   */
  function AfterDelete(s: WallState): (r: WallState)
    ensures !r.filled
    ensures !s.filled ==> r == s
    ensures s.filled ==> !r.hasPortal && r.windowIndex == -1
    ensures r.innerMaterialIndex == s.innerMaterialIndex && r.outerMaterialIndex == s.outerMaterialIndex
  {
    if s.filled then s.(windowIndex := -1, hasPortal := false, filled := false) else s
  }

  /**
   * `fillWall`: an unfilled wall becomes filled with the default wall material
   * on both sides, keeping its door and window; a filled wall is left alone.
   */
  function AfterFill(s: WallState, material: int): (r: WallState)
    ensures r.filled
    ensures s.filled ==> r == s
    ensures !s.filled ==> r.innerMaterialIndex == material && r.outerMaterialIndex == material
    ensures r.hasPortal == s.hasPortal && r.windowIndex == s.windowIndex
  {
    if !s.filled then s.(filled := true, innerMaterialIndex := material, outerMaterialIndex := material) else s
  }

  /** Deleting twice is deleting once, and so is filling. */
  lemma EditsIdempotent(s: WallState, material: int)
    ensures AfterDelete(AfterDelete(s)) == AfterDelete(s)
    ensures AfterFill(AfterFill(s, material), material) == AfterFill(s, material)
  {
  }

  /**
   * A wall deleted and filled again has the default material on both sides; a
   * filled wall loses its door and window on the way, an unfilled one keeps them.
   */
  lemma DeleteThenFill(s: WallState, material: int)
    ensures var r := AfterFill(AfterDelete(s), material);
      r == WallState(true, s.hasPortal && !s.filled, if s.filled then -1 else s.windowIndex, material, material)
  {
  }

  class Wall {
    const side: WallLabel
    var filled: bool
    var hasPortal: bool
    /** -1 for no window. */
    var windowIndex: int
    var innerMaterialIndex: int
    var outerMaterialIndex: int

    /** A wall in the given state; the wall objects themselves are made by `Building.js`. */
    constructor (side: WallLabel, state: WallState)
      ensures this.side == side && State() == state
    {
      this.side := side;
      filled := state.filled;
      hasPortal := state.hasPortal;
      windowIndex := state.windowIndex;
      innerMaterialIndex := state.innerMaterialIndex;
      outerMaterialIndex := state.outerMaterialIndex;
    }

    function State(): WallState
      reads this
    {
      WallState(filled, hasPortal, windowIndex, innerMaterialIndex, outerMaterialIndex)
    }
  }

  /** `deleteWall`, in place. */
  method DeleteWall(wall: Wall)
    modifies wall
    ensures wall.State() == AfterDelete(old(wall.State()))
  {
    if wall.filled {
      wall.windowIndex := -1;
      wall.hasPortal := false;
      wall.filled := false;
    }
  }

  /** `fillWall` with the default wall material's index, in place. */
  method FillWall(wall: Wall, defaultWallMaterial: int)
    modifies wall
    ensures wall.State() == AfterFill(old(wall.State()), defaultWallMaterial)
  {
    if !wall.filled {
      wall.filled := true;
      wall.innerMaterialIndex := defaultWallMaterial;
      wall.outerMaterialIndex := defaultWallMaterial;
    }
  }

  class Tile {
    const x: int
    const y: int
    /** The wall along the tile's top edge. */
    const top: Wall
    /** The wall along the tile's left edge. */
    const left: Wall
    var filled: bool
    var floorMaterialIndex: int
    var bottomMaterialIndex: int

    /** A tile with the given walls and fill; the tile objects themselves are made by `Building.js`. */
    constructor (x: int, y: int, top: Wall, left: Wall, filled: bool,
                 floorMaterialIndex: int, bottomMaterialIndex: int)
      ensures this.x == x && this.y == y && this.top == top && this.left == left
      ensures this.filled == filled && this.floorMaterialIndex == floorMaterialIndex
      ensures this.bottomMaterialIndex == bottomMaterialIndex
    {
      this.x := x;
      this.y := y;
      this.top := top;
      this.left := left;
      this.filled := filled;
      this.floorMaterialIndex := floorMaterialIndex;
      this.bottomMaterialIndex := bottomMaterialIndex;
    }
  }

  /** `deleteTile`: only the fill flag changes. */
  method DeleteTile(tile: Tile)
    modifies tile
    ensures !tile.filled
    ensures tile.floorMaterialIndex == old(tile.floorMaterialIndex)
    ensures tile.bottomMaterialIndex == old(tile.bottomMaterialIndex)
  {
    tile.filled := false;
  }

  /** `fillTile`: filled, with the default floor and ceiling materials. */
  method FillTile(tile: Tile, defaultFloorMaterial: int, defaultCeilingMaterial: int)
    modifies tile
    ensures tile.filled
    ensures tile.floorMaterialIndex == defaultFloorMaterial && tile.bottomMaterialIndex == defaultCeilingMaterial
  {
    tile.filled := true;
    tile.floorMaterialIndex := defaultFloorMaterial;
    tile.bottomMaterialIndex := defaultCeilingMaterial;
  }

  /** Row y, column x is a tile of the grid. */
  predicate OnGrid(tiles: seq<seq<Tile>>, x: int, y: int)
  {
    0 <= y < |tiles| && 0 <= x < |tiles[y]|
  }

  /** The wall a walk takes at tile (x, y): the left wall on a vertical walk, the top wall on a horizontal one. */
  function WalkWall(tiles: seq<seq<Tile>>, x: int, y: int, vertical: bool): Wall
    requires OnGrid(tiles, x, y)
  {
    if vertical then tiles[y][x].left else tiles[y][x].top
  }

  /**
   * `getLinearWallsBetweenPts` on the current level's tiles: the walls of the
   * walk's first `WalkCount` steps, in walk order, or `None` where the source
   * throws, reading a tile that is not on the grid (the walk checks only the
   * coordinate it moves along).
   */
  method GetLinearWallsBetweenPts(start: Option<TilePos>, end: TilePos, tiles: seq<seq<Tile>>, tilesH: int)
    returns (r: Option<seq<Wall>>)
    ensures var w := WallWalk(start, end); var n := WalkCount(w, tilesH);
      && (r.Some? <==> forall i :: 0 <= i < n ==> OnGrid(tiles, StepX(w, i), StepY(w, i)))
      && (r.Some? ==> |r.value| == n && forall i :: 0 <= i < n ==>
            r.value[i] == WalkWall(tiles, StepX(w, i), StepY(w, i), w.vertical))
  {
    var w := WallWalk(start, end);
    var ret: seq<Wall> := [];
    var i := 0;
    while i < w.steps
      invariant 0 <= i <= WalkCount(w, tilesH)
      invariant |ret| == i
      invariant forall k :: 0 <= k < i ==>
        OnGrid(tiles, StepX(w, k), StepY(w, k)) && ret[k] == WalkWall(tiles, StepX(w, k), StepY(w, k), w.vertical)
    {
      var x := StepX(w, i);
      var y := StepY(w, i);
      if (w.vertical && (y < 0 || y > tilesH)) || (!w.vertical && (x < 0 || x > tilesH)) {
        break;
      }
      if !OnGrid(tiles, x, y) {
        return None;
      }
      ret := ret + [WalkWall(tiles, x, y, w.vertical)];
      i := i + 1;
    }
    return Some(ret);
  }

  /** The editor's tool state: the level being edited, the drag start, and the default materials' indices. */
  class Tools {
    /** `mLevelCursor`. */
    var levelCursor: int
    /** The building's level count. */
    var levelCount: int
    var dragStart: Option<TilePos>
    var deleteMode: bool
    var defaultFloorMaterial: int
    var defaultCeilingMaterial: int
    var defaultWallMaterial: int
    var defaultRoofMaterial: int

    /** The cursor names a level of the building. */
    ghost predicate Valid()
      reads this
    {
      0 <= levelCursor < levelCount
    }

    /**
     * The tools as they start: the cursor on level 0, no drag under way, and the
     * delete mode and default materials as the settings give them.
     */
    constructor (levelCount: int, deleteMode: bool, defaultFloorMaterial: int, defaultCeilingMaterial: int,
                 defaultWallMaterial: int, defaultRoofMaterial: int)
      requires levelCount >= 1
      ensures Valid() && levelCursor == 0 && this.levelCount == levelCount && dragStart == None
      ensures this.deleteMode == deleteMode
      ensures this.defaultFloorMaterial == defaultFloorMaterial && this.defaultCeilingMaterial == defaultCeilingMaterial
      ensures this.defaultWallMaterial == defaultWallMaterial && this.defaultRoofMaterial == defaultRoofMaterial
    {
      levelCursor := 0;
      this.levelCount := levelCount;
      dragStart := None;
      this.deleteMode := deleteMode;
      this.defaultFloorMaterial := defaultFloorMaterial;
      this.defaultCeilingMaterial := defaultCeilingMaterial;
      this.defaultWallMaterial := defaultWallMaterial;
      this.defaultRoofMaterial := defaultRoofMaterial;
    }

    /**
     * `levelUp`: the cursor moves up one level; reaching the level count adds a
     * level. The level left and the level reached are re-rendered, in that order.
     */
    method LevelUp() returns (added: bool, rendered: seq<int>)
      requires Valid()
      modifies this
      ensures Valid()
      ensures levelCursor == old(levelCursor) + 1
      ensures added <==> old(levelCursor) + 1 == old(levelCount)
      ensures levelCount == old(levelCount) + (if added then 1 else 0)
      ensures rendered == [old(levelCursor), levelCursor]
      ensures dragStart == old(dragStart) && deleteMode == old(deleteMode)
    {
      levelCursor := levelCursor + 1;
      added := false;
      if levelCursor >= levelCount {
        levelCount := levelCount + 1;
        added := true;
      }
      rendered := [levelCursor - 1, levelCursor];
    }

    /**
     * `levelDown`: above level 0 the cursor moves down one level and the level
     * left and the level reached are re-rendered; on level 0 nothing happens.
     */
    method LevelDown() returns (rendered: seq<int>)
      requires Valid()
      modifies this
      ensures Valid()
      ensures levelCursor == if old(levelCursor) > 0 then old(levelCursor) - 1 else old(levelCursor)
      ensures levelCount == old(levelCount)
      ensures rendered == if old(levelCursor) > 0 then [old(levelCursor), levelCursor] else []
      ensures dragStart == old(dragStart) && deleteMode == old(deleteMode)
    {
      rendered := [];
      if levelCursor > 0 {
        levelCursor := levelCursor - 1;
        rendered := [levelCursor + 1, levelCursor];
      }
    }

    /**
     * The `drawtiles` command `fillTileArea` sends for a drop on `tpos`: the drag
     * rectangle on the current level, filling unless in delete mode, with the
     * default floor and ceiling materials and, for the room tool, the default
     * wall material (else -1). No tile, no command.
     */
    function FillTileArea(tpos: Option<TilePos>, isRoom: bool): (msg: Option<Protocol.Message>)
      reads this
      ensures tpos.None? <==> msg.None?
      ensures msg.Some? ==>
        && msg.value.DrawTiles? && msg.value.level == levelCursor
        && msg.value.x1 <= msg.value.x2 && msg.value.y1 <= msg.value.y2
        && {msg.value.x1, msg.value.x2} == {tpos.value.x, if dragStart.Some? then dragStart.value.x else tpos.value.x}
        && {msg.value.y1, msg.value.y2} == {tpos.value.y, if dragStart.Some? then dragStart.value.y else tpos.value.y}
        && msg.value.fill == !deleteMode
        && msg.value.tMaterial == defaultFloorMaterial && msg.value.bMaterial == defaultCeilingMaterial
        && msg.value.wMaterial == (if isRoom then defaultWallMaterial else -1)
    {
      if tpos.None? then None
      else
        var r := DragRect(tpos.value, dragStart);
        Some(Protocol.DrawTiles(levelCursor, r.x1, r.y1, r.x2, r.y2, !deleteMode,
                                defaultFloorMaterial, defaultCeilingMaterial,
                                if isRoom then defaultWallMaterial else -1))
    }

    /** The `addroof` command `fillRoofArea` sends: the drag rectangle with the default roof material. */
    function FillRoofArea(tpos: Option<TilePos>): (msg: Option<Protocol.Message>)
      reads this
      ensures tpos.None? <==> msg.None?
      ensures msg.Some? ==>
        && msg.value.AddRoof? && msg.value.level == levelCursor
        && msg.value.x1 <= msg.value.x2 && msg.value.y1 <= msg.value.y2
        && {msg.value.x1, msg.value.x2} == {tpos.value.x, if dragStart.Some? then dragStart.value.x else tpos.value.x}
        && {msg.value.y1, msg.value.y2} == {tpos.value.y, if dragStart.Some? then dragStart.value.y else tpos.value.y}
        && msg.value.material == defaultRoofMaterial
    {
      if tpos.None? then None
      else
        var r := DragRect(tpos.value, dragStart);
        Some(Protocol.AddRoof(levelCursor, r.x1, r.y1, r.x2, r.y2, defaultRoofMaterial))
    }
  }
}
