/**
 * The building model as the mesh worker reads it. The model itself (tiles,
 * walls, roofs and the per-material "box collections" of contiguous runs) is
 * maintained by `Building.js`, which is not part of this model; here it is a
 * value. The worker's one edit of its own, `setdoor`, changes a wall in the
 * tile grid, and the runs and door walls refer to grid tiles by position, so
 * they see the change as the source's object references do.
 */
module BuildingModel {
  import opened Wrappers

  /** What the renderer reads of a wall: whether it is filled and whether it has a door. */
  datatype Wall = Wall(filled: bool, hasPortal: bool)

  /** A tile at column x, row y, with its top and left walls (either may be absent). */
  datatype Tile = Tile(x: int, y: int, top: Option<Wall>, left: Option<Wall>)

  /**
   * One entry of a box collection: a run of same-material tiles or walls, given
   * by the grid coordinates of its first and last tiles. The run refers to the
   * tiles themselves, not copies: the renderer reads them from the level's grid,
   * so an edit to a tile's walls shows in the next render.
   */
  datatype Run = Run(startX: int, startY: int, endX: int, endY: int)

  datatype WallLabel = TopWall | LeftWall

  /**
   * A wall with a door or window, as listed in the level's `_portalWalls`: its
   * side of the tile, its materials, and the grid coordinates of its tile.
   */
  datatype PortalWall = PortalWall(side: WallLabel, innerMaterialIndex: int,
                                   outerMaterialIndex: int, x: int, y: int)

  /** A roof over the tile rectangle x1..x2 by y1..y2. */
  datatype Roof = Roof(x1: int, y1: int, x2: int, y2: int, materialIndex: int)

  /**
   * The faces a box collection lists runs for: the six faces of a floor tile's
   * box, the four faces of a wall, the four wall edges, and the wall caps along
   * horizontal (H) and vertical (V) runs.
   */
  datatype Face =
    | TileTop | TileBottom | TileNorth | TileSouth | TileEast | TileWest
    | WallSouth | WallNorth | WallWest | WallEast
    | NorthWallEdge | EastWallEdge | SouthWallEdge | WestWallEdge
    | WallTopH | WallBottomH | WallTopV | WallBottomV

  /**
   * A level's box collections: `Visual(f)` is the collection `_<f>Boxes` the
   * textured mesh uses, `PhysicsSet(f)` the `_p<f>Boxes` the physics mesh uses.
   */
  datatype BoxSet = Visual(face: Face) | PhysicsSet(face: Face)

  /**
   * One level: its heights (`_gl` the floor top, `_ch` the floor bottom and roof
   * base, `_cl` the wall top), floor thickness, tile grid, box collections keyed
   * by collection and material index, walls with doors, and roofs.
   */
  datatype Level = Level(
    groundLevel: real,
    ceilingHeight: real,
    ceilingLevel: real,
    floorThickness: real,
    tiles: seq<seq<Tile>>,
    boxes: map<BoxSet, map<int, seq<Run>>>,
    portalWalls: seq<PortalWall>,
    roofs: seq<Roof>)

  /**
   * The building: tile size, wall thickness, grid width and height in tiles,
   * roof slope and maximum roof height, the default material
   * (`getDefaultMaterial()`), and its levels.
   */
  datatype Building = Building(
    tileSize: real,
    wallThickness: real,
    width: int,
    height: int,
    roofSlope: real,
    roofHeight: real,
    defaultMaterial: int,
    levels: seq<Level>)

  /** Whether (x, y) is a tile of the level's grid. */
  predicate InGrid(l: Level, x: int, y: int)
  {
    0 <= y < |l.tiles| && 0 <= x < |l.tiles[y]|
  }

  /**
   * The tile at column x, row y of the level's grid, as a run or a door wall
   * refers to it. Coordinates off the grid stand for a tile there without walls.
   */
  function TileAt(l: Level, x: int, y: int): (t: Tile)
    ensures InGrid(l, x, y) ==> t == l.tiles[y][x]
    ensures !InGrid(l, x, y) ==> t == Tile(x, y, None, None)
  {
    if InGrid(l, x, y) then l.tiles[y][x] else Tile(x, y, None, None)
  }

  /** The runs of collection `bs` for one material; a missing entry has none. */
  function Runs(l: Level, bs: BoxSet, material: int): (r: seq<Run>)
    ensures bs !in l.boxes ==> r == []
    ensures bs in l.boxes && material in l.boxes[bs] ==> r == l.boxes[bs][material]
  {
    if bs in l.boxes && material in l.boxes[bs] then l.boxes[bs][material] else []
  }

  /**
   * The tiles a roof's blocking checks read exist, with the walls they read:
   * the top walls of row y1 and row y2 + 1 and the left walls of column x1 and
   * column x2 + 1, along the roof's extent.
   */
  ghost predicate RoofFits(l: Level, r: Roof)
  {
    && 0 <= r.x1 <= r.x2 && 0 <= r.y1 <= r.y2 && r.y2 + 1 < |l.tiles|
    && (forall row :: r.y1 <= row <= r.y2 + 1 ==> r.x2 + 1 < |l.tiles[row]|)
    && TopsAlong(l, r.y1, r.x1, r.x2) && TopsAlong(l, r.y2 + 1, r.x1, r.x2)
    && LeftsAlong(l, r.x1, r.y1, r.y2) && LeftsAlong(l, r.x2 + 1, r.y1, r.y2)
  }

  /** Row `row` has tiles x1..x2, each with a top wall. */
  predicate TopsAlong(l: Level, row: int, x1: int, x2: int)
  {
    && 0 <= row < |l.tiles| && 0 <= x1 && x2 < |l.tiles[row]|
    && forall x :: x1 <= x <= x2 ==> l.tiles[row][x].top.Some?
  }

  /** Rows z1..z2 have a tile in column `col`, each with a left wall. */
  predicate LeftsAlong(l: Level, col: int, z1: int, z2: int)
  {
    && 0 <= z1 && z2 < |l.tiles| && 0 <= col
    && forall z :: z1 <= z <= z2 ==> col < |l.tiles[z]| && l.tiles[z][col].left.Some?
  }

  /** A level every roof of which fits its grid. */
  ghost predicate LevelFits(l: Level)
  {
    forall k :: 0 <= k < |l.roofs| ==> RoofFits(l, l.roofs[k])
  }

  /** A model the worker can render: a non-zero roof slope and fitting roofs. */
  ghost predicate WellFormed(b: Building)
  {
    b.roofSlope != 0.0 && forall i :: 0 <= i < |b.levels| ==> LevelFits(b.levels[i])
  }

  /** A well-formed building has a non-zero roof slope. */
  lemma WellFormedSlope(b: Building)
    requires WellFormed(b)
    ensures b.roofSlope != 0.0
  {
  }

  /** The wall on side `isTop` (top, else left) of tile (x, y) of a level, if the tile and the wall exist. */
  function WallAt(b: Building, level: int, x: int, y: int, isTop: bool): Option<Wall>
  {
    if 0 <= level < |b.levels| && 0 <= y < |b.levels[level].tiles| && 0 <= x < |b.levels[level].tiles[y]|
    then (if isTop then b.levels[level].tiles[y][x].top else b.levels[level].tiles[y][x].left)
    else None
  }

  /**
   * The worker's own edit for `setdoor`: sets whether the top (or left) wall of
   * tile (x, y) on a level has a door. A missing level, tile or wall makes the
   * property access throw, so there is no result.
   */
  function SetPortal(b: Building, level: int, x: int, y: int, isTop: bool, fill: bool): (r: Option<Building>)
    ensures r.Some? <==> WallAt(b, level, x, y, isTop).Some?
    ensures r.Some? ==>
      && WallAt(r.value, level, x, y, isTop) == Some(Wall(WallAt(b, level, x, y, isTop).value.filled, fill))
      && (forall l, x', y', top' :: (l, x', y', top') != (level, x, y, isTop) ==>
            WallAt(r.value, l, x', y', top') == WallAt(b, l, x', y', top'))
      && |r.value.levels| == |b.levels|
      && (forall l :: 0 <= l < |b.levels| ==>
            && r.value.levels[l].boxes == b.levels[l].boxes && r.value.levels[l].roofs == b.levels[l].roofs
            && r.value.levels[l].portalWalls == b.levels[l].portalWalls
            && |r.value.levels[l].tiles| == |b.levels[l].tiles|
            && forall row :: 0 <= row < |b.levels[l].tiles| ==> |r.value.levels[l].tiles[row]| == |b.levels[l].tiles[row]|)
      && r.value.(levels := b.levels) == b
  {
    match WallAt(b, level, x, y, isTop)
    case None => None
    case Some(w) =>
      var l := b.levels[level];
      var t := l.tiles[y][x];
      var t' := if isTop then t.(top := Some(w.(hasPortal := fill))) else t.(left := Some(w.(hasPortal := fill)));
      var row := l.tiles[y][x := t'];
      Some(b.(levels := b.levels[level := l.(tiles := l.tiles[y := row])]))
  }

  /** Setting a door to what it already is leaves the building as it was. */
  lemma SetPortalUnchanged(b: Building, level: int, x: int, y: int, isTop: bool)
    requires WallAt(b, level, x, y, isTop).Some?
    ensures SetPortal(b, level, x, y, isTop, WallAt(b, level, x, y, isTop).value.hasPortal) == Some(b)
  {
    var l := b.levels[level];
    var t := l.tiles[y][x];
    assert (if isTop then t.(top := WallAt(b, level, x, y, isTop)) else t.(left := WallAt(b, level, x, y, isTop))) == t;
    assert l.tiles[y][x := t] == l.tiles[y];
    assert l.tiles[y := l.tiles[y]] == l.tiles;
    assert b.levels[level := l] == b.levels;
  }

  /** Two levels with the same roofs, the same grid shape and walls in the same places. */
  ghost predicate SameWalls(l1: Level, l2: Level)
  {
    && l1.roofs == l2.roofs && |l1.tiles| == |l2.tiles|
    && (forall y :: 0 <= y < |l1.tiles| ==> |l1.tiles[y]| == |l2.tiles[y]|)
    && (forall y, x :: 0 <= y < |l1.tiles| && 0 <= x < |l1.tiles[y]| ==>
          && (l1.tiles[y][x].top.Some? <==> l2.tiles[y][x].top.Some?)
          && (l1.tiles[y][x].left.Some? <==> l2.tiles[y][x].left.Some?))
  }

  /** Whether a level's roofs fit depends only on its roofs and where its walls are. */
  lemma SameWallsFit(l1: Level, l2: Level)
    requires SameWalls(l1, l2) && LevelFits(l1)
    ensures LevelFits(l2)
  {
    forall k | 0 <= k < |l2.roofs|
      ensures RoofFits(l2, l2.roofs[k])
    {
      var r := l2.roofs[k];
      assert RoofFits(l1, r);
      assert TopsAlong(l2, r.y1, r.x1, r.x2) && TopsAlong(l2, r.y2 + 1, r.x1, r.x2);
      assert LeftsAlong(l2, r.x1, r.y1, r.y2) && LeftsAlong(l2, r.x2 + 1, r.y1, r.y2);
    }
  }

  /** Setting a door keeps every wall where it was, so a renderable model stays renderable. */
  lemma SetPortalWellFormed(b: Building, level: int, x: int, y: int, isTop: bool, fill: bool)
    requires WellFormed(b) && SetPortal(b, level, x, y, isTop, fill).Some?
    ensures WellFormed(SetPortal(b, level, x, y, isTop, fill).value)
  {
    var r := SetPortal(b, level, x, y, isTop, fill).value;
    assert r.roofSlope == b.roofSlope by {
      assert r.(levels := b.levels) == b;
    }
    forall i | 0 <= i < |r.levels|
      ensures LevelFits(r.levels[i])
    {
      forall y', x' | 0 <= y' < |b.levels[i].tiles| && 0 <= x' < |b.levels[i].tiles[y']|
        ensures (b.levels[i].tiles[y'][x'].top.Some? <==> r.levels[i].tiles[y'][x'].top.Some?)
        ensures (b.levels[i].tiles[y'][x'].left.Some? <==> r.levels[i].tiles[y'][x'].left.Some?)
      {
        assert WallAt(r, i, x', y', true).Some? <==> WallAt(b, i, x', y', true).Some?;
        assert WallAt(r, i, x', y', false).Some? <==> WallAt(b, i, x', y', false).Some?;
      }
      SameWallsFit(b.levels[i], r.levels[i]);
    }
  }
}
