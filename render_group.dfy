/**
 * `RenderGroup`: the triangles of one component type and one material, drawn
 * into a list that `compile` flattens into the position and texture-coordinate
 * buffers the worker posts.
 */
module RenderGroups {
  import opened Wrappers
  import opened Geometry
  import opened BuildingModel
  import opened Protocol
  import opened TileDims
  import opened Faces
  import opened Roofs
  import opened GroupSpec

  /** Whether some top wall along row `row`, columns x1..x2, is not filled (the north and south blocking loops). */
  method FindOpenTop(l: Level, row: int, x1: int, x2: int) returns (open: bool)
    requires TopsAlong(l, row, x1, x2)
    ensures open <==> OpenTopAlong(l, row, x1, x2)
  {
    open := false;
    var x := x1;
    while x <= x2
      invariant x1 <= x && (x <= x2 + 1 || x == x1)
      invariant forall y :: x1 <= y < x ==> l.tiles[row][y].top.value.filled
    {
      if !l.tiles[row][x].top.value.filled {
        open := true;
        break;
      }
      x := x + 1;
    }
  }

  /** Whether some left wall along column `col`, rows z1..z2, is not filled (the west and east blocking loops). */
  method FindOpenLeft(l: Level, col: int, z1: int, z2: int) returns (open: bool)
    requires LeftsAlong(l, col, z1, z2)
    ensures open <==> OpenLeftAlong(l, col, z1, z2)
  {
    open := false;
    var z := z1;
    while z <= z2
      invariant z1 <= z && (z <= z2 + 1 || z == z1)
      invariant forall y :: z1 <= y < z ==> l.tiles[y][col].left.value.filled
    {
      if !l.tiles[z][col].left.value.filled {
        open := true;
        break;
      }
      z := z + 1;
    }
  }

  class RenderGroup {
    /** The segment level: a level index, or -1 for the export segment. */
    const level: int
    const componentType: Category
    const materialNumber: nat
    var triangles: seq<Triangle>
    var renderedVertices: Option<seq<real>>
    var renderedUvs: Option<seq<real>>

    constructor (level: int, componentType: Category, materialNumber: nat)
      ensures this.level == level && this.componentType == componentType
      ensures this.materialNumber == materialNumber
      ensures triangles == [] && renderedVertices == None && renderedUvs == None
    {
      this.level := level;
      this.componentType := componentType;
      this.materialNumber := materialNumber;
      triangles := [];
      renderedVertices := None;
      renderedUvs := None;
    }

    /** Empties the triangle list; the compiled buffers stay until the next compile. */
    method Reset()
      modifies this
      ensures triangles == []
      ensures renderedVertices == old(renderedVertices) && renderedUvs == old(renderedUvs)
    {
      triangles := [];
    }

    /** `triangle(t)`: appends one triangle. */
    method AddTriangle(t: Triangle)
      modifies this
      ensures triangles == old(triangles) + [t]
    {
      triangles := triangles + [t];
    }

    /** Appends a triangle and then its flip. */
    method TwoWayTriangle(t: Triangle)
      modifies this
      ensures triangles == old(triangles) + TwoWay(t)
    {
      AddTriangle(t);
      AddTriangle(t.Flip());
    }

    /** `square`: appends the two triangles of an axis-aligned quad. */
    method Square(x1: real, y1: real, z1: real, x2: real, y2: real, z2: real)
      modifies this
      ensures triangles == old(triangles) + Geometry.Square(x1, y1, z1, x2, y2, z2)
    {
      var q := Geometry.Square(x1, y1, z1, x2, y2, z2);
      AddTriangle(q[0]);
      AddTriangle(q[1]);
    }

    method DrawPiece(p: Piece)
      modifies this
      ensures triangles == old(triangles) + PieceTriangles(p)
    {
      match p
      case Quad(x1, y1, z1, x2, y2, z2) => Square(x1, y1, z1, x2, y2, z2);
      case TwoSided(t) => TwoWayTriangle(t);
    }

    method DrawPieces(ps: seq<Piece>)
      modifies this
      ensures triangles == old(triangles) + Emitted(ps)
    {
      for i := 0 to |ps|
        invariant triangles == old(triangles) + Emitted(ps[..i])
      {
        AppendAssoc(old(triangles), Emitted(ps[..i]), PieceTriangles(ps[i]));
        DrawPiece(ps[i]);
        assert ps[..i + 1][..i] == ps[..i];
      }
      assert ps[..|ps|] == ps;
    }

    /**
     * `cycleCollection`: for each run of collection `bs` in this group's
     * material, in list order, passes the dimensions of the run's first and last
     * tiles to the callback and draws what it returns; a collection without an
     * entry for the material draws nothing.
     */
    method CycleCollection(b: Building, l: Level, bs: BoxSet, cb: Callback)
      modifies this
      ensures triangles == old(triangles) + RunsTriangles(b, l, cb, Runs(l, bs, materialNumber))
    {
      var collection := Runs(l, bs, materialNumber);
      for c := 0 to |collection|
        invariant triangles == old(triangles) + RunsTriangles(b, l, cb, collection[..c])
      {
        var region := collection[c];
        var coord1 := DimsFor(b, l, TileAt(l, region.startX, region.startY));
        var coord2 := DimsFor(b, l, TileAt(l, region.endX, region.endY));
        AppendAssoc(old(triangles), RunsTriangles(b, l, cb, collection[..c]), Emitted(cb(coord1, coord2)));
        DrawPieces(cb(coord1, coord2));
        assert collection[..c + 1][..c] == collection[..c];
      }
      assert collection[..|collection|] == collection;
    }

    /** `renderWallFacesAndPortals`: the south, north, west and east wall faces, textured or physics, door strips included. */
    method RenderWallFacesAndPortals(b: Building, l: Level, isPhysics: bool)
      modifies this
      ensures triangles == old(triangles) + WallFaceTriangles(b, l, isPhysics, materialNumber)
    {
      var southBoxes := WallFaceSet(WallSouth, isPhysics);
      var northBoxes := WallFaceSet(WallNorth, isPhysics);
      var eastBoxes := WallFaceSet(WallEast, isPhysics);
      var westBoxes := WallFaceSet(WallWest, isPhysics);
      ghost var m := materialNumber;
      ghost var t0 := triangles;
      CycleCollection(b, l, southBoxes, FaceCallback(WallSouth));
      CycleCollection(b, l, northBoxes, FaceCallback(WallNorth));
      CycleCollection(b, l, westBoxes, FaceCallback(WallWest));
      CycleCollection(b, l, eastBoxes, FaceCallback(WallEast));
      ghost var c0, c1, c2, c3 :=
        CollectionTriangles(b, l, southBoxes, m),
        CollectionTriangles(b, l, northBoxes, m),
        CollectionTriangles(b, l, westBoxes, m),
        CollectionTriangles(b, l, eastBoxes, m);
      AppendAssoc(t0, c0, c1);
      AppendAssoc(t0, c0 + c1, c2);
      AppendAssoc(t0, c0 + c1 + c2, c3);
    }

    /**
     * `drawRoof`: finds which edges are open by walking the walls along them,
     * then draws the slopes, the flat top and, unless for physics, the trim.
     */
    method DrawRoof(b: Building, l: Level, r: Roof, isPhysics: bool)
      requires b.roofSlope != 0.0 && RoofFits(l, r)
      modifies this
      ensures triangles == old(triangles) + RoofTriangles(b, l, r, isPhysics)
    {
      var north := FindOpenTop(l, r.y1, r.x1, r.x2);
      var south := FindOpenTop(l, r.y2 + 1, r.x1, r.x2);
      var west := FindOpenLeft(l, r.x1, r.y1, r.y2);
      var east := FindOpenLeft(l, r.x2 + 1, r.y1, r.y2);
      var pitch := b.tileSize + b.wallThickness;
      var plan := PlanFrom(
        EdgeLo(r.x1, b.width, pitch), EdgeLo(r.y1, b.height, pitch),
        EdgeHi(r.x2, b.width, pitch), EdgeHi(r.y2, b.height, pitch),
        l.floorThickness, l.ceilingHeight + 0.001, b.roofSlope, b.roofHeight,
        north, south, west, east);
      assert plan == PlanRoof(b, l, r);
      DrawPieces(RoofPieces(plan, isPhysics));
    }

    /** The six floor collections: tops, bottoms, then the north, south, east and west edges. */
    method RenderFloors(b: Building, l: Level)
      modifies this
      ensures triangles == old(triangles) + FloorTriangles(b, l, materialNumber)
    {
      ghost var m := materialNumber;
      ghost var t0 := triangles;
      CycleCollection(b, l, Visual(TileTop), FaceCallback(TileTop));
      CycleCollection(b, l, Visual(TileBottom), FaceCallback(TileBottom));
      CycleCollection(b, l, Visual(TileNorth), FaceCallback(TileNorth));
      CycleCollection(b, l, Visual(TileSouth), FaceCallback(TileSouth));
      CycleCollection(b, l, Visual(TileEast), FaceCallback(TileEast));
      CycleCollection(b, l, Visual(TileWest), FaceCallback(TileWest));
      ghost var c0, c1, c2, c3, c4, c5 :=
        CollectionTriangles(b, l, Visual(TileTop), m),
        CollectionTriangles(b, l, Visual(TileBottom), m),
        CollectionTriangles(b, l, Visual(TileNorth), m),
        CollectionTriangles(b, l, Visual(TileSouth), m),
        CollectionTriangles(b, l, Visual(TileEast), m),
        CollectionTriangles(b, l, Visual(TileWest), m);
      AppendAssoc(t0, c0, c1);
      AppendAssoc(t0, c0 + c1, c2);
      AppendAssoc(t0, c0 + c1 + c2, c3);
      AppendAssoc(t0, c0 + c1 + c2 + c3, c4);
      AppendAssoc(t0, c0 + c1 + c2 + c3 + c4, c5);
    }

    /** The eight wall edge and cap collections. */
    method RenderWallEdges(b: Building, l: Level)
      modifies this
      ensures triangles == old(triangles) + WallEdgeTriangles(b, l, materialNumber)
    {
      ghost var m := materialNumber;
      ghost var t0 := triangles;
      CycleCollection(b, l, Visual(NorthWallEdge), FaceCallback(NorthWallEdge));
      CycleCollection(b, l, Visual(EastWallEdge), FaceCallback(EastWallEdge));
      CycleCollection(b, l, Visual(SouthWallEdge), FaceCallback(SouthWallEdge));
      CycleCollection(b, l, Visual(WestWallEdge), FaceCallback(WestWallEdge));
      CycleCollection(b, l, Visual(WallTopH), FaceCallback(WallTopH));
      CycleCollection(b, l, Visual(WallBottomH), FaceCallback(WallBottomH));
      CycleCollection(b, l, Visual(WallTopV), FaceCallback(WallTopV));
      CycleCollection(b, l, Visual(WallBottomV), FaceCallback(WallBottomV));
      ghost var c0, c1, c2, c3, c4, c5, c6, c7 :=
        CollectionTriangles(b, l, Visual(NorthWallEdge), m),
        CollectionTriangles(b, l, Visual(EastWallEdge), m),
        CollectionTriangles(b, l, Visual(SouthWallEdge), m),
        CollectionTriangles(b, l, Visual(WestWallEdge), m),
        CollectionTriangles(b, l, Visual(WallTopH), m),
        CollectionTriangles(b, l, Visual(WallBottomH), m),
        CollectionTriangles(b, l, Visual(WallTopV), m),
        CollectionTriangles(b, l, Visual(WallBottomV), m);
      AppendAssoc(t0, c0, c1);
      AppendAssoc(t0, c0 + c1, c2);
      AppendAssoc(t0, c0 + c1 + c2, c3);
      AppendAssoc(t0, c0 + c1 + c2 + c3, c4);
      AppendAssoc(t0, c0 + c1 + c2 + c3 + c4, c5);
      AppendAssoc(t0, c0 + c1 + c2 + c3 + c4 + c5, c6);
      AppendAssoc(t0, c0 + c1 + c2 + c3 + c4 + c5 + c6, c7);
    }

    /** The door rims: each listed door wall whose rim material is this group's. */
    method RenderPortalRims(b: Building, l: Level)
      modifies this
      ensures triangles == old(triangles) + PortalsTriangles(b, l, l.portalWalls, materialNumber)
    {
      var ws := l.portalWalls;
      for k := 0 to |ws|
        invariant triangles == old(triangles) + PortalsTriangles(b, l, ws[..k], materialNumber)
      {
        var w := ws[k];
        AppendAssoc(old(triangles), PortalsTriangles(b, l, ws[..k], materialNumber), PortalTriangles(b, l, w, materialNumber));
        assert ws[..k + 1][..k] == ws[..k];
        if RimMaterial(b, w) == materialNumber {
          DrawPieces(PortalPieces(b, l, w, materialNumber));
        } else {
          AppendEmpty(triangles);
        }
      }
      assert ws[..|ws|] == ws;
    }

    /**
     * The roof loops: for physics every roof of the level without trim, else the
     * roofs of this group's material.
     */
    method RenderRoofs(b: Building, l: Level, isPhysics: bool)
      requires b.roofSlope != 0.0 && LevelFits(l)
      modifies this
      ensures triangles == old(triangles) +
        RoofsTriangles(b, l, l.roofs, if isPhysics then None else Some(materialNumber))
    {
      var rs := l.roofs;
      ghost var sel := if isPhysics then None else Some(materialNumber);
      for k := 0 to |rs|
        invariant triangles == old(triangles) + RoofsTriangles(b, l, rs[..k], sel)
      {
        var r := rs[k];
        assert rs[..k + 1][..k] == rs[..k];
        assert rs[..k + 1][k] == r;
        if isPhysics {
          AppendAssoc(old(triangles), RoofsTriangles(b, l, rs[..k], sel), RoofTriangles(b, l, r, true));
          DrawRoof(b, l, r, true);
        } else if r.materialIndex == materialNumber {
          AppendAssoc(old(triangles), RoofsTriangles(b, l, rs[..k], sel), RoofTriangles(b, l, r, false));
          DrawRoof(b, l, r, false);
        } else {
          AppendEmpty(triangles);
          AppendEmpty(RoofsTriangles(b, l, rs[..k], sel));
        }
      }
      assert rs[..|rs|] == rs;
    }

    /** The walls: faces with their door strips, then edges and caps, then door rims. */
    method RenderWalls(b: Building, l: Level)
      modifies this
      ensures triangles == old(triangles) + WallTriangles(b, l, materialNumber)
    {
      ghost var t0 := triangles;
      RenderWallFacesAndPortals(b, l, false);
      RenderWallEdges(b, l);
      RenderPortalRims(b, l);
      ghost var m := materialNumber;
      ghost var f, e, p := WallFaceTriangles(b, l, false, m), WallEdgeTriangles(b, l, m),
                           PortalsTriangles(b, l, l.portalWalls, m);
      AppendAssoc(t0, f, e);
      AppendAssoc(t0, f + e, p);
    }

    /** The physics mesh: floor tops and bottoms, wall faces, then every roof without trim. */
    method RenderPhysics(b: Building, l: Level)
      requires b.roofSlope != 0.0 && LevelFits(l)
      modifies this
      ensures triangles == old(triangles) + PhysicsTriangles(b, l, materialNumber)
    {
      ghost var m := materialNumber;
      ghost var t0 := triangles;
      CycleCollection(b, l, PhysicsSet(TileTop), FaceCallback(TileTop));
      CycleCollection(b, l, PhysicsSet(TileBottom), FaceCallback(TileBottom));
      RenderWallFacesAndPortals(b, l, true);
      RenderRoofs(b, l, true);
      ghost var c0, c1, w, r :=
        CollectionTriangles(b, l, PhysicsSet(TileTop), m), CollectionTriangles(b, l, PhysicsSet(TileBottom), m),
        WallFaceTriangles(b, l, true, m), RoofsTriangles(b, l, l.roofs, None);
      AppendAssoc(t0, c0, c1);
      AppendAssoc(t0, c0 + c1, w);
      AppendAssoc(t0, c0 + c1 + w, r);
    }

    /** One level of `render`: what the component type calls for, in the order floors, walls, roofs, physics. */
    method RenderLevel(b: Building, l: Level)
      requires b.roofSlope != 0.0 && LevelFits(l)
      modifies this
      ensures triangles == old(triangles) + LevelTriangles(b, l, componentType, materialNumber)
    {
      ghost var t0 := triangles;
      ghost var m := materialNumber;
      var c := componentType;
      ghost var f := if c == Floors || c == All then FloorTriangles(b, l, m) else [];
      ghost var w := if c == Walls || c == All then WallTriangles(b, l, m) else [];
      ghost var r := if c == Roofs || c == All then RoofsTriangles(b, l, l.roofs, Some(m)) else [];
      ghost var p := if c == Physics then PhysicsTriangles(b, l, m) else [];
      AppendEmpty(t0);
      if c == Floors || c == All {
        RenderFloors(b, l);
      }
      assert triangles == t0 + f;
      AppendEmpty(t0 + f);
      if c == Walls || c == All {
        RenderWalls(b, l);
      }
      assert triangles == t0 + f + w;
      AppendEmpty(t0 + f + w);
      if c == Roofs || c == All {
        RenderRoofs(b, l, false);
      }
      assert triangles == t0 + f + w + r;
      AppendEmpty(t0 + f + w + r);
      if c == Physics {
        RenderPhysics(b, l);
      }
      assert triangles == t0 + f + w + r + p;
      AppendAssoc(t0, f, w);
      AppendAssoc(t0, f + w, r);
      AppendAssoc(t0, f + w + r, p);
    }

    /**
     * `compile`: writes every triangle's three vertices into a fresh position
     * buffer (x, y, z each) and a fresh texture-coordinate buffer (u, v each), in
     * list order.
     */
    method Compile()
      modifies this
      ensures triangles == old(triangles)
      ensures renderedVertices == Some(Positions(triangles))
      ensures renderedUvs == Some(Uvs(triangles))
    {
      var ts := triangles;
      var n := |ts|;
      ghost var positions, texCoords := Positions(ts), Uvs(ts);
      var vertices := new real[9 * n];
      var uvs := new real[6 * n];
      for i := 0 to n
        modifies vertices, uvs
        invariant forall k :: 0 <= k < 9 * i ==> vertices[k] == positions[k]
        invariant forall k :: 0 <= k < 6 * i ==> uvs[k] == texCoords[k]
      {
        CompiledPositions(ts, i);
        CompiledUvs(ts, i);
        WriteTriangle(vertices, uvs, positions, texCoords, ts[i], i);
      }
      assert vertices[..] == positions;
      assert uvs[..] == texCoords;
      renderedVertices := Some(vertices[..]);
      renderedUvs := Some(uvs[..]);
    }

    /**
     * `render`: empties the group, draws every level the group covers (all of
     * them for the export segment, else its own) and compiles the buffers.
     */
    method Render(b: Building)
      requires WellFormed(b) && SegmentLevel(b, level)
      modifies this
      ensures triangles == GroupTriangles(b, level, componentType, materialNumber)
      ensures renderedVertices == Some(Positions(triangles))
      ensures renderedUvs == Some(Uvs(triangles))
    {
      hide LevelTriangles;
      Reset();
      var levelsToRender: seq<int> := [];
      if level == -1 {
        for i := 0 to |b.levels|
          invariant levelsToRender == Range(i)
        {
          levelsToRender := levelsToRender + [i];
        }
      } else {
        levelsToRender := [level];
      }
      assert levelsToRender == LevelsToRender(b, level);
      for i := 0 to |levelsToRender|
        invariant LevelIndices(b, levelsToRender[..i])
        invariant triangles == LevelListTriangles(b, levelsToRender[..i], componentType, materialNumber)
      {
        var lNumb := levelsToRender[i];
        var l := b.levels[lNumb];
        assert levelsToRender[..i + 1][..i] == levelsToRender[..i];
        assert levelsToRender[..i + 1][i] == lNumb;
        RenderLevel(b, l);
      }
      assert levelsToRender[..|levelsToRender|] == levelsToRender;
      Compile();
    }
  }

  /** Writes triangle t, the i-th, into both buffers at the places the layouts give it. */
  method WriteTriangle(vertices: array<real>, uvs: array<real>, ghost positions: seq<real>, ghost texCoords: seq<real>, t: Triangle, i: nat)
    requires vertices != uvs
    requires vertices.Length == |positions| && 9 * i + 9 <= |positions|
    requires uvs.Length == |texCoords| && 6 * i + 6 <= |texCoords|
    requires positions[9 * i] == t.v1.x && positions[9 * i + 1] == t.v1.y && positions[9 * i + 2] == t.v1.z
    requires positions[9 * i + 3] == t.v2.x && positions[9 * i + 4] == t.v2.y && positions[9 * i + 5] == t.v2.z
    requires positions[9 * i + 6] == t.v3.x && positions[9 * i + 7] == t.v3.y && positions[9 * i + 8] == t.v3.z
    requires texCoords[6 * i] == t.v1.u && texCoords[6 * i + 1] == t.v1.v
    requires texCoords[6 * i + 2] == t.v2.u && texCoords[6 * i + 3] == t.v2.v
    requires texCoords[6 * i + 4] == t.v3.u && texCoords[6 * i + 5] == t.v3.v
    requires forall k :: 0 <= k < 9 * i ==> vertices[k] == positions[k]
    requires forall k :: 0 <= k < 6 * i ==> uvs[k] == texCoords[k]
    modifies vertices, uvs
    ensures forall k :: 0 <= k < 9 * (i + 1) ==> vertices[k] == positions[k]
    ensures forall k :: 0 <= k < 6 * (i + 1) ==> uvs[k] == texCoords[k]
  {
    vertices[9 * i + 0], vertices[9 * i + 1], vertices[9 * i + 2] := t.v1.x, t.v1.y, t.v1.z;
    uvs[6 * i + 0], uvs[6 * i + 1] := t.v1.u, t.v1.v;
    vertices[9 * i + 3], vertices[9 * i + 4], vertices[9 * i + 5] := t.v2.x, t.v2.y, t.v2.z;
    uvs[6 * i + 2], uvs[6 * i + 3] := t.v2.u, t.v2.v;
    vertices[9 * i + 6], vertices[9 * i + 7], vertices[9 * i + 8] := t.v3.x, t.v3.y, t.v3.z;
    uvs[6 * i + 4], uvs[6 * i + 5] := t.v3.u, t.v3.v;
  }

  /** Triangle i fills entries 9i..9i+8 of the position buffer: x, y and z of each vertex in turn. */
  lemma CompiledPositions(ts: seq<Triangle>, i: nat)
    requires i < |ts|
    ensures var p, t := Positions(ts), ts[i];
      && p[9 * i] == t.v1.x && p[9 * i + 1] == t.v1.y && p[9 * i + 2] == t.v1.z
      && p[9 * i + 3] == t.v2.x && p[9 * i + 4] == t.v2.y && p[9 * i + 5] == t.v2.z
      && p[9 * i + 6] == t.v3.x && p[9 * i + 7] == t.v3.y && p[9 * i + 8] == t.v3.z
  {
    PositionsAt(ts, i, 0); PositionsAt(ts, i, 1); PositionsAt(ts, i, 2);
    PositionsAt(ts, i, 3); PositionsAt(ts, i, 4); PositionsAt(ts, i, 5);
    PositionsAt(ts, i, 6); PositionsAt(ts, i, 7); PositionsAt(ts, i, 8);
  }

  /** Triangle i fills entries 6i..6i+5 of the texture-coordinate buffer: u and v of each vertex in turn. */
  lemma CompiledUvs(ts: seq<Triangle>, i: nat)
    requires i < |ts|
    ensures var q, t := Uvs(ts), ts[i];
      && q[6 * i] == t.v1.u && q[6 * i + 1] == t.v1.v
      && q[6 * i + 2] == t.v2.u && q[6 * i + 3] == t.v2.v
      && q[6 * i + 4] == t.v3.u && q[6 * i + 5] == t.v3.v
  {
    UvsAt(ts, i, 0); UvsAt(ts, i, 1); UvsAt(ts, i, 2);
    UvsAt(ts, i, 3); UvsAt(ts, i, 4); UvsAt(ts, i, 5);
  }
}
