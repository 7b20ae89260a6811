/**
 * What a render group emits, as a pure specification. Every drawing call of the
 * worker is one `Piece`: a quad drawn by `square` or a triangle drawn two-sided
 * by `twoWayTriangle`. The functions here list, in emission order, the pieces
 * a group draws for each run of a box collection, each door rim, each roof, each
 * level and the group as a whole.
 */
module Faces {
  import opened Wrappers
  import opened Geometry
  import opened BuildingModel
  import opened TileDims
  import opened Protocol

  /** One drawing call: `square(x1, y1, z1, x2, y2, z2)` or `twoWayTriangle(t)`. */
  datatype Piece =
    | Quad(x1: real, y1: real, z1: real, x2: real, y2: real, z2: real)
    | TwoSided(t: Triangle)

  /** The triangles one drawing call appends. */
  function PieceTriangles(p: Piece): (r: seq<Triangle>)
    ensures |r| == 2
    ensures p.TwoSided? ==> r == [p.t, p.t.Flip()]
  {
    match p
    case Quad(x1, y1, z1, x2, y2, z2) => Square(x1, y1, z1, x2, y2, z2)
    case TwoSided(t) => TwoWay(t)
  }

  /** The triangles a list of drawing calls appends, in call order. */
  function Emitted(ps: seq<Piece>): (r: seq<Triangle>)
    decreases |ps|
  {
    if ps == [] then [] else Emitted(ps[..|ps| - 1]) + PieceTriangles(ps[|ps| - 1])
  }

  /** Every drawing call appends exactly two triangles. */
  lemma {:induction false} EmittedLength(ps: seq<Piece>)
    ensures |Emitted(ps)| == 2 * |ps|
    decreases |ps|
  {
    if ps != [] {
      EmittedLength(ps[..|ps| - 1]);
    }
  }

  /** Emitting two call lists one after the other appends their triangles in order. */
  lemma {:induction false} EmittedAppend(a: seq<Piece>, b: seq<Piece>)
    ensures Emitted(a + b) == Emitted(a) + Emitted(b)
    decreases |b|
  {
    if b == [] {
      assert a + b == a;
    } else {
      var b' := b[..|b| - 1];
      assert (a + b)[..|a + b| - 1] == a + b';
      assert (a + b)[|a + b| - 1] == b[|b| - 1];
      EmittedAppend(a, b');
    }
  }

  /** Calls that are all two-sided leave a list in which each triangle is followed by its flip. */
  lemma {:induction false} EmittedTwoSided(ps: seq<Piece>)
    requires forall k :: 0 <= k < |ps| ==> ps[k].TwoSided?
    ensures TwoWayClosed(Emitted(ps))
    decreases |ps|
  {
    if ps != [] {
      var p := ps[|ps| - 1];
      EmittedTwoSided(ps[..|ps| - 1]);
      assert TwoWayClosed([p.t, p.t.Flip()][2..]);
      TwoWayClosedAppend(Emitted(ps[..|ps| - 1]), PieceTriangles(p));
    }
  }

  function When(c: bool, p: Piece): (r: seq<Piece>)
    ensures |r| == if c then 1 else 0
  {
    if c then [p] else []
  }

  /**
   * The pieces the drawing callback of collection face `face` draws for one run,
   * given the drawing dimensions c1 of the run's first tile and c2 of its last.
   * A wall face whose first tile has a door in that wall draws the strips around
   * the door instead of the whole face.
   */
  function FacePieces(face: Face, c1: DrawDims, c2: DrawDims): seq<Piece>
  {
    match face
    case TileTop => [Quad(c1.x1, c1.top, c2.z2, c2.x2, c1.top, c1.z1)]
    case TileBottom => [Quad(c1.x1, c1.bottom, c1.z1, c2.x2, c1.bottom, c2.z2)]
    case TileNorth => [Quad(c2.x2, c1.bottom, c1.z1, c1.x1, c1.top, c1.z1)]
    case TileSouth => [Quad(c1.x1, c1.bottom, c2.z2, c2.x2, c2.top, c2.z2)]
    case TileEast => [Quad(c2.x2, c1.bottom, c2.z2, c2.x2, c1.top, c1.z1)]
    case TileWest => [Quad(c1.x1, c1.bottom, c1.z1, c1.x1, c1.top, c2.z2)]
    case WallSouth =>
      if !HasPortal(c1.tile.top) || c1.topPortal.None? then
        [Quad(c1.x1o, c1.bottom, c1.z1i, c2.x2o, c1.wallTop, c1.z1i)]
      else
        var p := c1.topPortal.value;
        When(p.hasTop, Quad(c1.x1o, p.portalTop, c1.z1i, c1.x2o, c1.wallTop, c1.z1i))
        + When(p.hasBottom, Quad(c1.x1o, c1.bottom, c1.z1i, c1.x2o, p.portalBottom, c1.z1i))
        + When(p.hasEast, Quad(p.portalLeft, p.portalTop, c1.z1i, c1.x1o, p.portalBottom, c1.z1i))
        + When(p.hasWest, Quad(c1.x2o, p.portalTop, c1.z1i, p.portalRight, p.portalBottom, c1.z1i))
    case WallNorth =>
      if !HasPortal(c1.tile.top) || c1.topPortal.None? then
        [Quad(c2.x2o, c1.bottom, c1.z1o, c1.x1o, c1.wallTop, c1.z1o)]
      else
        var p := c1.topPortal.value;
        When(p.hasTop, Quad(c1.x2o, p.portalTop, c1.z1o, c1.x1o, c1.wallTop, c1.z1o))
        + When(p.hasBottom, Quad(c1.x2o, c1.bottom, c1.z1o, c1.x1o, p.portalBottom, c1.z1o))
        + When(p.hasEast, Quad(p.portalLeft, p.portalBottom, c1.z1o, c1.x1o, p.portalTop, c1.z1o))
        + When(p.hasWest, Quad(c1.x2o, p.portalBottom, c1.z1o, p.portalRight, p.portalTop, c1.z1o))
    case WallWest =>
      if !HasPortal(c1.tile.left) || c1.leftPortal.None? then
        [Quad(c1.x1o, c1.bottom, c1.z1o, c1.x1o, c1.wallTop, c2.z2o)]
      else
        var q := c1.leftPortal.value;
        When(q.hasTop, Quad(c1.x1o, c1.wallTop, c1.z2o, c1.x1o, q.portalTop, c1.z1o))
        + When(q.hasBottom, Quad(c1.x1o, q.portalBottom, c1.z2o, c1.x1o, c1.bottom, c1.z1o))
        + When(q.hasNorth, Quad(c1.x1o, q.portalBottom, c1.z1o, c1.x1o, q.portalTop, q.portalNorth))
        + When(q.hasSouth, Quad(c1.x1o, q.portalBottom, q.portalSouth, c1.x1o, q.portalTop, c1.z2o))
    case WallEast =>
      if !HasPortal(c1.tile.left) || c1.leftPortal.None? then
        [Quad(c1.x1i, c1.bottom, c2.z2o, c1.x1i, c1.wallTop, c1.z1o)]
      else
        var q := c1.leftPortal.value;
        When(q.hasTop, Quad(c1.x1i, q.portalTop, c1.z2o, c1.x1i, c1.wallTop, c1.z1o))
        + When(q.hasBottom, Quad(c1.x1i, c1.bottom, c1.z2o, c1.x1i, q.portalBottom, c1.z1o))
        + When(q.hasNorth, Quad(c1.x1i, q.portalBottom, q.portalNorth, c1.x1i, q.portalTop, c1.z1o))
        + When(q.hasSouth, Quad(c1.x1i, q.portalBottom, c1.z2o, c1.x1i, q.portalTop, q.portalSouth))
    case NorthWallEdge => [Quad(c1.x1i, c1.bottom, c1.z1o, c1.x1o, c1.wallTop, c1.z1o)]
    case EastWallEdge => [Quad(c1.x2o, c1.bottom, c1.z1i, c1.x2o, c1.wallTop, c1.z1o)]
    case SouthWallEdge => [Quad(c1.x1o, c1.bottom, c1.z2o, c1.x1i, c1.wallTop, c1.z2o)]
    case WestWallEdge => [Quad(c1.x1o, c1.bottom, c1.z1o, c1.x1o, c1.wallTop, c1.z1i)]
    case WallTopH => [Quad(c1.x1o, c1.wallTop, c1.z1i, c2.x2o, c1.wallTop, c1.z1o)]
    case WallBottomH => [Quad(c1.x1o, c1.bottom, c1.z1o, c2.x2o, c1.bottom, c1.z1i)]
    case WallTopV => [Quad(c1.x1i, c1.wallTop, c1.z1o, c1.x1o, c1.wallTop, c2.z2o)]
    case WallBottomV => [Quad(c1.x1o, c1.bottom, c1.z1o, c1.x1i, c1.bottom, c2.z2o)]
  }

  /** A drawing callback of `cycleCollection`: the pieces of a run from its end tiles' dimensions. */
  type Callback = (DrawDims, DrawDims) -> seq<Piece>

  /** The callback the renderer passes to `cycleCollection` for a collection of face `face`. */
  function FaceCallback(face: Face): Callback
  {
    (c1, c2) => FacePieces(face, c1, c2)
  }

  /**
   * The pieces a callback draws for one run: it is given the dimensions of the
   * run's first and last tiles, as the level's grid holds them now.
   */
  function RunPieces(b: Building, l: Level, cb: Callback, run: Run): seq<Piece>
  {
    cb(DimsFor(b, l, TileAt(l, run.startX, run.startY)), DimsFor(b, l, TileAt(l, run.endX, run.endY)))
  }

  predicate IsWallFace(face: Face)
  {
    face == WallSouth || face == WallNorth || face == WallWest || face == WallEast
  }

  /** The wall that carries the door a wall face is cut around. */
  function FaceWall(face: Face, t: Tile): Option<Wall>
  {
    if face == WallSouth || face == WallNorth then t.top else t.left
  }

  /**
   * A run draws one quad, except a wall face at a door, which draws three strips:
   * the lintel above the door and the two jambs beside it; the sill strip is never
   * drawn, because the door's bottom is always the floor.
   */
  lemma RunPieceCount(b: Building, l: Level, face: Face, run: Run)
    ensures |RunPieces(b, l, FaceCallback(face), run)| ==
      if IsWallFace(face) && HasPortal(FaceWall(face, TileAt(l, run.startX, run.startY))) then 3 else 1
  {
    PortalFlagsAsWritten(b, l, TileAt(l, run.startX, run.startY));
  }

  /** The wall faces whose door cut-out is in the top wall (`isTop`) or the left wall of a tile. */
  predicate FaceOfWall(face: Face, isTop: bool)
  {
    if isTop then face == WallSouth || face == WallNorth else face == WallWest || face == WallEast
  }

  /**
   * `setdoor` shows in the next render: once the top (or left) wall of tile
   * (x, y) is given a door, every face run of that wall starting at the tile
   * draws the lintel and the two jambs, and once the door is taken away, the
   * whole face again. The runs are not rebuilt; they reach the edited tile.
   */
  lemma DoorShowsInWallFace(b: Building, level: int, x: int, y: int, isTop: bool, fill: bool,
                            face: Face, run: Run)
    requires SetPortal(b, level, x, y, isTop, fill).Some?
    requires run.startX == x && run.startY == y && FaceOfWall(face, isTop)
    ensures var b' := SetPortal(b, level, x, y, isTop, fill).value;
      0 <= level < |b'.levels| &&
      |RunPieces(b', b'.levels[level], FaceCallback(face), run)| == if fill then 3 else 1
  {
    var b' := SetPortal(b, level, x, y, isTop, fill).value;
    assert WallAt(b', level, x, y, isTop).Some?;
    var l' := b'.levels[level];
    assert InGrid(l', x, y);
    RunPieceCount(b', l', face, run);
  }

  /**
   * `setdoor` shows in the rims too: a listed door wall on that side of tile
   * (x, y) has its rim drawn, in its rim material's group, exactly when the
   * door was set.
   */
  lemma DoorShowsInRim(b: Building, level: int, x: int, y: int, isTop: bool, fill: bool, w: PortalWall)
    requires SetPortal(b, level, x, y, isTop, fill).Some?
    requires w.x == x && w.y == y && (w.side == TopWall <==> isTop)
    ensures var b' := SetPortal(b, level, x, y, isTop, fill).value;
      0 <= level < |b'.levels| &&
      |PortalPieces(b', b'.levels[level], w, RimMaterial(b', w))| == if fill then 3 else 0
  {
    var b' := SetPortal(b, level, x, y, isTop, fill).value;
    assert WallAt(b', level, x, y, isTop).Some?;
    var l' := b'.levels[level];
    assert InGrid(l', x, y);
    PortalRimOnce(b', l', w, RimMaterial(b', w));
  }

  /** The triangles a callback appends for a list of runs, run by run. */
  function RunsTriangles(b: Building, l: Level, cb: Callback, runs: seq<Run>): seq<Triangle>
    decreases |runs|
  {
    if runs == [] then []
    else RunsTriangles(b, l, cb, runs[..|runs| - 1]) + Emitted(RunPieces(b, l, cb, runs[|runs| - 1]))
  }

  /** The triangles `cycleCollection` appends for one collection and material. */
  function CollectionTriangles(b: Building, l: Level, bs: BoxSet, material: int): seq<Triangle>
  {
    RunsTriangles(b, l, FaceCallback(bs.face), Runs(l, bs, material))
  }

  /** The material a door's rim is drawn in: the wall's, if both sides agree, else the default. */
  function RimMaterial(b: Building, w: PortalWall): int
  {
    if w.outerMaterialIndex == w.innerMaterialIndex then w.innerMaterialIndex else b.defaultMaterial
  }

  /**
   * The rim (reveal) of a door drawn by the group of `material`: the inside of the
   * wall around the door, only in the rim material's group. A wall listed with a
   * door that its tile does not carry draws nothing.
   */
  function PortalPieces(b: Building, l: Level, w: PortalWall, material: int): seq<Piece>
  {
    if RimMaterial(b, w) != material then []
    else
      var c := DimsFor(b, l, TileAt(l, w.x, w.y));
      match w.side
      case LeftWall =>
        if c.leftPortal.None? then []
        else
          var q := c.leftPortal.value;
          When(q.hasTop, Quad(c.x1o, q.portalTop, q.portalNorth, c.x1i, q.portalTop, q.portalSouth))
          + When(q.hasBottom, Quad(c.x1i, q.portalBottom, q.portalNorth, c.x1o, q.portalBottom, q.portalSouth))
          + When(q.hasNorth, Quad(c.x1i, q.portalTop, q.portalNorth, c.x1o, q.portalBottom, q.portalNorth))
          + When(q.hasSouth, Quad(c.x1o, q.portalTop, q.portalSouth, c.x1i, q.portalBottom, q.portalSouth))
      case TopWall =>
        if c.topPortal.None? then []
        else
          var p := c.topPortal.value;
          When(p.hasTop, Quad(p.portalLeft, p.portalTop, c.z1o, p.portalRight, p.portalTop, c.z1i))
          + When(p.hasBottom, Quad(p.portalLeft, p.portalBottom, c.z1i, p.portalRight, p.portalBottom, c.z1o))
          + When(p.hasEast, Quad(p.portalLeft, p.portalTop, c.z1o, p.portalLeft, p.portalBottom, c.z1i))
          + When(p.hasWest, Quad(p.portalRight, p.portalTop, c.z1i, p.portalRight, p.portalBottom, c.z1o))
  }

  /**
   * A door rim is drawn in exactly one material's group, as three quads (head and
   * two jambs) when the tile carries the door, and nowhere else.
   */
  lemma PortalRimOnce(b: Building, l: Level, w: PortalWall, material: int)
    ensures |PortalPieces(b, l, w, material)| ==
      if material == RimMaterial(b, w) &&
         HasPortal(if w.side == LeftWall then TileAt(l, w.x, w.y).left else TileAt(l, w.x, w.y).top)
      then 3 else 0
  {
    PortalFlagsAsWritten(b, l, TileAt(l, w.x, w.y));
  }

  /** The triangles of one door rim. */
  function PortalTriangles(b: Building, l: Level, w: PortalWall, material: int): seq<Triangle>
  {
    Emitted(PortalPieces(b, l, w, material))
  }

  /** The rims of a list of door walls, in list order. */
  function PortalsTriangles(b: Building, l: Level, ws: seq<PortalWall>, material: int): seq<Triangle>
    decreases |ws|
  {
    if ws == [] then []
    else PortalsTriangles(b, l, ws[..|ws| - 1], material) + PortalTriangles(b, l, ws[|ws| - 1], material)
  }
}
