/**
 * What `RenderGroup.render` draws for a group: the triangles of every level it
 * covers, chosen by its component type and its material number, and the
 * buffers the group then holds.
 */
module GroupSpec {
  import opened Wrappers
  import opened Geometry
  import opened BuildingModel
  import opened Protocol
  import opened Faces
  import opened Roofs

  /**
   * The triangles one group draws for one level: floors for the floors and all
   * components; wall faces, wall edges and door rims for the walls and all
   * components; the roofs of its material for the roofs and all components; and
   * for physics the physics floors, the physics wall faces and every roof without
   * trim.
   */
  ghost function LevelTriangles(b: Building, l: Level, cat: Category, material: int): seq<Triangle>
    requires b.roofSlope != 0.0
  {
    (if cat == Floors || cat == All then FloorTriangles(b, l, material) else [])
    + (if cat == Walls || cat == All then WallTriangles(b, l, material) else [])
    + (if cat == Roofs || cat == All then RoofsTriangles(b, l, l.roofs, Some(material)) else [])
    + (if cat == Physics then PhysicsTriangles(b, l, material) else [])
  }

  /** The six floor collections of a material: tops, bottoms, then the north, south, east and west edges. */
  function FloorTriangles(b: Building, l: Level, material: int): seq<Triangle>
  {
    CollectionTriangles(b, l, Visual(TileTop), material) + CollectionTriangles(b, l, Visual(TileBottom), material)
    + CollectionTriangles(b, l, Visual(TileNorth), material) + CollectionTriangles(b, l, Visual(TileSouth), material)
    + CollectionTriangles(b, l, Visual(TileEast), material) + CollectionTriangles(b, l, Visual(TileWest), material)
  }

  /** The collection of wall face `face`: the textured one, or the physics one. */
  function WallFaceSet(face: Face, isPhysics: bool): BoxSet
  {
    if isPhysics then PhysicsSet(face) else Visual(face)
  }

  /** The four wall-face collections (south, north, west, east), door strips included. */
  function WallFaceTriangles(b: Building, l: Level, isPhysics: bool, material: int): seq<Triangle>
  {
    CollectionTriangles(b, l, WallFaceSet(WallSouth, isPhysics), material)
    + CollectionTriangles(b, l, WallFaceSet(WallNorth, isPhysics), material)
    + CollectionTriangles(b, l, WallFaceSet(WallWest, isPhysics), material)
    + CollectionTriangles(b, l, WallFaceSet(WallEast, isPhysics), material)
  }

  /** The eight wall edge and cap collections. */
  function WallEdgeTriangles(b: Building, l: Level, material: int): seq<Triangle>
  {
    CollectionTriangles(b, l, Visual(NorthWallEdge), material) + CollectionTriangles(b, l, Visual(EastWallEdge), material)
    + CollectionTriangles(b, l, Visual(SouthWallEdge), material) + CollectionTriangles(b, l, Visual(WestWallEdge), material)
    + CollectionTriangles(b, l, Visual(WallTopH), material) + CollectionTriangles(b, l, Visual(WallBottomH), material)
    + CollectionTriangles(b, l, Visual(WallTopV), material) + CollectionTriangles(b, l, Visual(WallBottomV), material)
  }

  /** The wall faces, then the wall edges and caps, then the door rims of a material. */
  function WallTriangles(b: Building, l: Level, material: int): seq<Triangle>
  {
    WallFaceTriangles(b, l, false, material) + WallEdgeTriangles(b, l, material)
    + PortalsTriangles(b, l, l.portalWalls, material)
  }

  /** The physics floor tops and bottoms, the physics wall faces and every roof without trim. */
  ghost function PhysicsTriangles(b: Building, l: Level, material: int): seq<Triangle>
    requires b.roofSlope != 0.0
  {
    CollectionTriangles(b, l, PhysicsSet(TileTop), material) + CollectionTriangles(b, l, PhysicsSet(TileBottom), material)
    + WallFaceTriangles(b, l, true, material)
    + RoofsTriangles(b, l, l.roofs, None)
  }

  /** The export component draws, per level, the floors, then the walls, then the roofs. */
  lemma AllIsFloorsWallsRoofs(b: Building, l: Level, material: int)
    requires b.roofSlope != 0.0
    ensures LevelTriangles(b, l, All, material) ==
      LevelTriangles(b, l, Floors, material) + LevelTriangles(b, l, Walls, material)
      + LevelTriangles(b, l, Roofs, material)
  {
    hide FloorTriangles, WallTriangles, RoofsTriangles, PhysicsTriangles;
    var f, w, r := FloorTriangles(b, l, material), WallTriangles(b, l, material),
                   RoofsTriangles(b, l, l.roofs, Some(material));
    var e: seq<Triangle> := [];
    AppendEmpty(f);
    AppendEmpty(w);
    AppendEmpty(r);
    AppendEmpty(e);
    AppendEmpty(f + w + r);
    assert LevelTriangles(b, l, All, material) == f + w + r + e;
    assert LevelTriangles(b, l, Floors, material) == f + e + e + e;
    assert LevelTriangles(b, l, Walls, material) == e + w + e + e;
    assert LevelTriangles(b, l, Roofs, material) == e + e + r + e;
  }

  /** The level indices 0..n-1 in ascending order. */
  function Range(n: nat): (r: seq<int>)
    ensures |r| == n && forall k :: 0 <= k < n ==> r[k] == k
  {
    if n == 0 then [] else Range(n - 1) + [n - 1]
  }

  /** A segment level is a level index, or -1 for the export segment that covers all levels. */
  predicate SegmentLevel(b: Building, segLevel: int)
  {
    segLevel == -1 || 0 <= segLevel < |b.levels|
  }

  /** The levels a group of a segment renders: all of them for export, else its own. */
  function LevelsToRender(b: Building, segLevel: int): (r: seq<int>)
    ensures forall k :: 0 <= k < |r| ==> (SegmentLevel(b, segLevel) ==> 0 <= r[k] < |b.levels|)
    ensures segLevel == -1 ==> r == Range(|b.levels|)
    ensures segLevel != -1 ==> r == [segLevel]
  {
    if segLevel == -1 then Range(|b.levels|) else [segLevel]
  }

  predicate LevelIndices(b: Building, lvls: seq<int>)
  {
    forall k :: 0 <= k < |lvls| ==> 0 <= lvls[k] < |b.levels|
  }

  /** The triangles of the listed levels, level by level. */
  ghost function LevelListTriangles(b: Building, lvls: seq<int>, cat: Category, material: int): seq<Triangle>
    requires b.roofSlope != 0.0 && LevelIndices(b, lvls)
    decreases |lvls|
  {
    if lvls == [] then []
    else LevelListTriangles(b, lvls[..|lvls| - 1], cat, material)
         + LevelTriangles(b, b.levels[lvls[|lvls| - 1]], cat, material)
  }

  /** The triangles a group of a segment holds after rendering: every level for export, else the one level. */
  ghost function GroupTriangles(b: Building, segLevel: int, cat: Category, material: int): seq<Triangle>
    requires b.roofSlope != 0.0 && SegmentLevel(b, segLevel)
  {
    LevelListTriangles(b, LevelsToRender(b, segLevel), cat, material)
  }

  /** The compiled output of one group. */
  ghost function GroupOutput(b: Building, segLevel: int, cat: Category, material: nat): (g: GroupOut)
    requires b.roofSlope != 0.0 && SegmentLevel(b, segLevel)
    ensures g.category == cat && g.material == material
    ensures |g.positions| == 9 * |GroupTriangles(b, segLevel, cat, material)|
    ensures |g.uvs| == 6 * |GroupTriangles(b, segLevel, cat, material)|
  {
    var ts := GroupTriangles(b, segLevel, cat, material);
    GroupOut(cat, material, Positions(ts), Uvs(ts))
  }

  /** The outputs of a component's groups 0..n-1: group j outputs the triangles of material j. */
  ghost function ComponentOutputs(b: Building, segLevel: int, cat: Category, n: nat): (r: seq<GroupOut>)
    requires b.roofSlope != 0.0 && SegmentLevel(b, segLevel)
    ensures |r| == n
  {
    if n == 0 then [] else ComponentOutputs(b, segLevel, cat, n - 1) + [GroupOutput(b, segLevel, cat, n - 1)]
  }

  /** The outputs of a segment's components, in component order, for `count` materials. */
  ghost function SegmentOutputs(b: Building, segLevel: int, cats: seq<Category>, count: int): seq<GroupOut>
    requires b.roofSlope != 0.0 && SegmentLevel(b, segLevel)
  {
    if cats == [] then []
    else SegmentOutputs(b, segLevel, cats[..|cats| - 1], count)
         + ComponentOutputs(b, segLevel, cats[|cats| - 1], GroupCount(cats[|cats| - 1], count))
  }
}
