/**
 * The hip roof `drawRoof` draws over a rectangle of tiles: where its eaves sit,
 * how high it rises, which of its four slopes are drawn (an edge lined by
 * filled walls along its whole length is not), the flat top that remains when
 * the slopes do not meet, and the trim under the eaves.
 */
module Roofs {
  import opened Geometry
  import opened BuildingModel
  import opened TileDims
  import opened Faces
  import opened Wrappers

  function Abs(a: real): real { if a < 0.0 then -a else a }

  /** Some tile of row `row`, columns x1..x2, has a top wall that is not filled. */
  ghost predicate OpenTopAlong(l: Level, row: int, x1: int, x2: int)
  {
    exists x :: x1 <= x <= x2 && 0 <= row < |l.tiles| && 0 <= x < |l.tiles[row]|
      && l.tiles[row][x].top.Some? && !l.tiles[row][x].top.value.filled
  }

  /** Some tile of column `col`, rows z1..z2, has a left wall that is not filled. */
  ghost predicate OpenLeftAlong(l: Level, col: int, z1: int, z2: int)
  {
    exists z :: z1 <= z <= z2 && 0 <= z < |l.tiles| && 0 <= col < |l.tiles[z]|
      && l.tiles[z][col].left.Some? && !l.tiles[z][col].left.value.filled
  }

  /**
   * The measurements of one roof. `xai`..`zbi` is the inner rectangle (the tile
   * edges), `inset` the floor thickness over the slope, `xa`..`zb` the eaves,
   * `ya` the eave height, `yc` the peak height, `x2a`..`z2b` the rectangle of
   * the flat top, `va`/`vb` the texture rows of eave and peak, and the four
   * flags whether a slope is drawn on that side.
   */
  datatype RoofPlan = RoofPlan(
    xai: real, zai: real, xbi: real, zbi: real, inset: real,
    xa: real, za: real, xb: real, zb: real,
    dmin: real, ya: real, yb: real, yc: real,
    x2a: real, x2b: real, z2a: real, z2b: real,
    va: real, vb: real,
    north: bool, south: bool, west: bool, east: bool)

  /** The peak height: the full hip height, capped by the maximum roof height. */
  function Peak(yb: real, cap: real): (yc: real)
    ensures yc <= yb && yc <= cap && (yc == yb || yc == cap)
  {
    Min(yb, cap)
  }

  /**
   * The plan of a roof over the inner rectangle xai..xbi by zai..zbi, with floor
   * thickness ft, eave height ya, slope s, maximum height `cap` and the four
   * open-edge flags.
   */
  function PlanFrom(xai: real, zai: real, xbi: real, zbi: real, ft: real, ya: real,
                    s: real, cap: real, north: bool, south: bool, west: bool, east: bool): (p: RoofPlan)
    requires s != 0.0
    ensures p.xai == xai && p.zai == zai && p.xbi == xbi && p.zbi == zbi && p.ya == ya
    ensures p.north == north && p.south == south && p.west == west && p.east == east
    ensures 0.0 <= p.dmin <= Abs((xai - p.inset) - (xbi + p.inset))
    ensures p.dmin <= Abs((zai - p.inset) - (zbi + p.inset))
    ensures p.yb == ya + s * p.dmin
    ensures p.yc <= ya + cap && p.yc <= p.yb
    ensures p.yc == ya + cap || p.yc == p.yb
  {
    var inset := ft / s;
    var xa0, za0, xb0, zb0 := xai - inset, zai - inset, xbi + inset, zbi + inset;
    var dmin := Min(Abs(xa0 - xb0), Abs(za0 - zb0));
    var yb := ya + s * dmin;
    var yc := Peak(yb, ya + cap);
    var rise := yc - ya;
    var za := if north then za0 else za0 + inset;
    var zb := if south then zb0 else zb0 - inset;
    var xa := if west then xa0 else xa0 + inset;
    var xb := if east then xb0 else xb0 - inset;
    RoofPlan(
      xai, zai, xbi, zbi, inset, xa, za, xb, zb, dmin, ya, yb, yc,
      if west then xa0 + rise else xa, if east then xb0 - rise else xb,
      if north then za0 + rise else za, if south then zb0 - rise else zb,
      ya / s / 1.414, yc / s / 1.414,
      north, south, west, east)
  }

  /** The near edge (`lo`) or far edge of grid cells i..j, half a pitch outside the cell centres. */
  function EdgeLo(i: int, w: int, pitch: real): real
  {
    Times(2 * i - w - 1, pitch) / 2.0
  }

  function EdgeHi(j: int, w: int, pitch: real): real
  {
    Times(2 * j - w + 1, pitch) / 2.0
  }

  /** The plan of roof `r` on level `l` of building `b`. */
  ghost function PlanRoof(b: Building, l: Level, r: Roof): (p: RoofPlan)
    requires b.roofSlope != 0.0
    ensures p.north <==> OpenTopAlong(l, r.y1, r.x1, r.x2)
    ensures p.south <==> OpenTopAlong(l, r.y2 + 1, r.x1, r.x2)
    ensures p.west <==> OpenLeftAlong(l, r.x1, r.y1, r.y2)
    ensures p.east <==> OpenLeftAlong(l, r.x2 + 1, r.y1, r.y2)
    ensures p.yc <= p.ya + b.roofHeight && p.yc <= p.yb && p.yb == p.ya + b.roofSlope * p.dmin
    ensures p.yc == p.ya + b.roofHeight || p.yc == p.yb
    ensures 0.0 <= p.dmin <= Abs((p.xai - p.inset) - (p.xbi + p.inset))
  {
    var pitch := b.tileSize + b.wallThickness;
    PlanFrom(
      EdgeLo(r.x1, b.width, pitch), EdgeLo(r.y1, b.height, pitch),
      EdgeHi(r.x2, b.width, pitch), EdgeHi(r.y2, b.height, pitch),
      l.floorThickness, l.ceilingHeight + 0.001, b.roofSlope, b.roofHeight,
      OpenTopAlong(l, r.y1, r.x1, r.x2), OpenTopAlong(l, r.y2 + 1, r.x1, r.x2),
      OpenLeftAlong(l, r.x1, r.y1, r.y2), OpenLeftAlong(l, r.x2 + 1, r.y1, r.y2))
  }

  /** A side that is not drawn leaves its eave on the inner line and has no slope. */
  lemma BlockedEdgeIsFlush(b: Building, l: Level, r: Roof)
    requires b.roofSlope != 0.0
    ensures var p := PlanRoof(b, l, r);
      && (!p.north ==> p.za == p.zai && p.z2a == p.za)
      && (!p.south ==> p.zb == p.zbi && p.z2b == p.zb)
      && (!p.west ==> p.xa == p.xai && p.x2a == p.xa)
      && (!p.east ==> p.xb == p.xbi && p.x2b == p.xb)
      && (p.north ==> p.za == p.zai - p.inset && p.z2a - p.za == p.yc - p.ya)
      && (p.south ==> p.zb == p.zbi + p.inset && p.zb - p.z2b == p.yc - p.ya)
      && (p.west ==> p.xa == p.xai - p.inset && p.x2a - p.xa == p.yc - p.ya)
      && (p.east ==> p.xb == p.xbi + p.inset && p.xb - p.x2b == p.yc - p.ya)
  {
  }

  predicate AllTwoSided(ps: seq<Piece>)
  {
    forall k :: 0 <= k < |ps| ==> ps[k].TwoSided?
  }

  /** The west slope: drawn only when the west edge is open, as one or two triangles. */
  function WestSlope(p: RoofPlan): (r: seq<Piece>)
    ensures |r| == if !p.west then 0 else if p.z2a != p.z2b then 2 else 1
    ensures AllTwoSided(r)
  {
    if !p.west then []
    else
      [TwoSided(Triangle(Vertex(p.xa, p.ya, p.za, p.za, p.va), Vertex(p.xa, p.ya, p.zb, p.zb, p.va),
                         Vertex(p.x2a, p.yc, p.z2a, p.z2a, p.vb)))]
      + (if p.z2a != p.z2b then
           [TwoSided(Triangle(Vertex(p.x2a, p.yc, p.z2b, p.z2b, p.vb), Vertex(p.x2a, p.yc, p.z2a, p.z2a, p.vb),
                              Vertex(p.xa, p.ya, p.zb, p.zb, p.va)))]
         else [])
  }

  /** The east slope. */
  function EastSlope(p: RoofPlan): (r: seq<Piece>)
    ensures |r| == if !p.east then 0 else if p.z2a != p.z2b then 2 else 1
    ensures AllTwoSided(r)
  {
    if !p.east then []
    else
      [TwoSided(Triangle(Vertex(p.xb, p.ya, p.za, p.za, p.va), Vertex(p.x2b, p.yc, p.z2a, p.z2a, p.vb),
                         Vertex(p.xb, p.ya, p.zb, p.zb, p.va)))]
      + (if p.z2a != p.z2b then
           [TwoSided(Triangle(Vertex(p.x2b, p.yc, p.z2b, p.z2b, p.vb), Vertex(p.xb, p.ya, p.zb, p.zb, p.va),
                              Vertex(p.x2b, p.yc, p.z2a, p.z2a, p.vb)))]
         else [])
  }

  /** The north slope. */
  function NorthSlope(p: RoofPlan): (r: seq<Piece>)
    ensures |r| == if !p.north then 0 else if p.x2a != p.x2b then 2 else 1
    ensures AllTwoSided(r)
  {
    if !p.north then []
    else
      [TwoSided(Triangle(Vertex(p.xa, p.ya, p.za, p.xa, p.va), Vertex(p.x2a, p.yc, p.z2a, p.x2a, p.vb),
                         Vertex(p.xb, p.ya, p.za, p.xb, p.va)))]
      + (if p.x2a != p.x2b then
           [TwoSided(Triangle(Vertex(p.x2b, p.yc, p.z2a, p.x2b, p.vb), Vertex(p.xb, p.ya, p.za, p.xb, p.va),
                              Vertex(p.x2a, p.yc, p.z2a, p.x2a, p.vb)))]
         else [])
  }

  /** The south slope. */
  function SouthSlope(p: RoofPlan): (r: seq<Piece>)
    ensures |r| == if !p.south then 0 else if p.x2a != p.x2b then 2 else 1
    ensures AllTwoSided(r)
  {
    if !p.south then []
    else
      [TwoSided(Triangle(Vertex(p.xa, p.ya, p.zb, p.xa, p.va), Vertex(p.xb, p.ya, p.zb, p.xb, p.va),
                         Vertex(p.x2a, p.yc, p.z2b, p.x2a, p.vb)))]
      + (if p.x2a != p.x2b then
           [TwoSided(Triangle(Vertex(p.x2b, p.yc, p.z2b, p.x2b, p.vb), Vertex(p.x2a, p.yc, p.z2b, p.x2a, p.vb),
                              Vertex(p.xb, p.ya, p.zb, p.xb, p.va)))]
         else [])
  }

  /** The flat top, drawn exactly when the top rectangle is not degenerate in both directions. */
  function FlatTop(p: RoofPlan): (r: seq<Piece>)
    ensures |r| == if p.x2a != p.x2b || p.z2a != p.z2b then 2 else 0
    ensures AllTwoSided(r)
    ensures forall k :: 0 <= k < |r| ==>
      r[k].t.v1.y == p.yc && r[k].t.v2.y == p.yc && r[k].t.v3.y == p.yc
  {
    if p.x2a != p.x2b || p.z2a != p.z2b then
      [TwoSided(Triangle(Vertex(p.x2a, p.yc, p.z2a, p.x2a, p.z2a), Vertex(p.x2b, p.yc, p.z2b, p.x2b, p.z2b),
                         Vertex(p.x2b, p.yc, p.z2a, p.x2b, p.z2a))),
       TwoSided(Triangle(Vertex(p.x2a, p.yc, p.z2b, p.x2a, p.z2b), Vertex(p.x2b, p.yc, p.z2b, p.x2b, p.z2b),
                         Vertex(p.x2a, p.yc, p.z2a, p.x2a, p.z2a)))]
    else []
  }

  /**
   * The trim under the eaves of the drawn sides: the bottom rim (south, north,
   * east, west), the inner cliff (east, west, north, south) and the small corner
   * triangles where a drawn side meets an undrawn one. As written, the east rim
   * spans xa..xai and the west rim xbi..xb.
   */
  function Trim(p: RoofPlan): seq<Piece>
  {
    var h := p.ya + p.inset;
    When(p.south, Quad(p.xb, p.ya, p.zb, p.xa, p.ya, p.zbi))
    + When(p.north, Quad(p.xb, p.ya, p.zai, p.xa, p.ya, p.za))
    + When(p.east, Quad(p.xa, p.ya, p.zai, p.xai, p.ya, p.zbi))
    + When(p.west, Quad(p.xbi, p.ya, p.zai, p.xb, p.ya, p.zbi))
    + When(p.east, Quad(p.xai, p.ya, p.zbi, p.xai, h, p.zai))
    + When(p.west, Quad(p.xbi, p.ya, p.zai, p.xbi, h, p.zbi))
    + When(p.north, Quad(p.xai, p.ya, p.zai, p.xbi, h, p.zai))
    + When(p.south, Quad(p.xbi, p.ya, p.zbi, p.xai, h, p.zbi))
    + When(p.south && !p.east, TwoSided(Triangle(Vertex(p.xb, p.ya, p.zb, p.zb, p.ya),
        Vertex(p.xb, p.ya, p.zbi, p.zbi, p.ya), Vertex(p.xb, h, p.zbi, p.zbi, h))))
    + When(p.south && !p.west, TwoSided(Triangle(Vertex(p.xa, p.ya, p.zb, p.zb, p.ya),
        Vertex(p.xa, p.ya, p.zbi, p.zbi, p.ya), Vertex(p.xa, h, p.zbi, p.zbi, h))))
    + When(p.north && !p.east, TwoSided(Triangle(Vertex(p.xb, p.ya, p.za, p.za, p.ya),
        Vertex(p.xb, p.ya, p.zai, p.zai, p.ya), Vertex(p.xb, h, p.zai, p.zai, h))))
    + When(p.north && !p.west, TwoSided(Triangle(Vertex(p.xa, p.ya, p.za, p.za, p.ya),
        Vertex(p.xa, p.ya, p.zai, p.zai, p.ya), Vertex(p.xa, h, p.zai, p.zai, h))))
    + When(p.east && !p.south, TwoSided(Triangle(Vertex(p.xb, p.ya, p.zb, p.xb, p.ya),
        Vertex(p.xbi, p.ya, p.zb, p.xbi, p.ya), Vertex(p.xbi, h, p.zb, p.xbi, h))))
    + When(p.east && !p.north, TwoSided(Triangle(Vertex(p.xb, p.ya, p.za, p.xb, p.ya),
        Vertex(p.xbi, p.ya, p.za, p.xbi, p.ya), Vertex(p.xbi, h, p.za, p.xbi, h))))
    + When(p.west && !p.south, TwoSided(Triangle(Vertex(p.xa, p.ya, p.zb, p.xb, p.ya),
        Vertex(p.xai, p.ya, p.zb, p.xbi, p.ya), Vertex(p.xai, h, p.zb, p.xbi, h))))
    + When(p.west && !p.north, TwoSided(Triangle(Vertex(p.xa, p.ya, p.za, p.xa, p.ya),
        Vertex(p.xai, p.ya, p.za, p.xai, p.ya), Vertex(p.xai, h, p.za, p.xai, h))))
  }

  /** Everything `drawRoof` draws for a plan: the slopes, the top, and, unless physics, the trim. */
  function RoofPieces(p: RoofPlan, isPhysics: bool): seq<Piece>
  {
    WestSlope(p) + EastSlope(p) + NorthSlope(p) + SouthSlope(p) + FlatTop(p)
    + (if isPhysics then [] else Trim(p))
  }

  /**
   * The physics roof is the textured roof without its trim, and it is made of
   * two-sided triangles only, each followed by its flip.
   */
  lemma PhysicsRoofIsTwoSided(p: RoofPlan)
    ensures RoofPieces(p, false) == RoofPieces(p, true) + Trim(p)
    ensures AllTwoSided(RoofPieces(p, true))
    ensures TwoWayClosed(Emitted(RoofPieces(p, true)))
  {
    var ps := RoofPieces(p, true);
    assert ps == WestSlope(p) + EastSlope(p) + NorthSlope(p) + SouthSlope(p) + FlatTop(p);
    assert AllTwoSided(ps);
    EmittedTwoSided(ps);
  }

  /** The trim is drawn iff some side is. */
  lemma TrimIffSomeSide(p: RoofPlan)
    ensures |Trim(p)| > 0 <==> (p.north || p.south || p.east || p.west)
  {
  }

  /**
   * A roof whose four edges are lined by filled walls is a flat lid: no slopes,
   * no trim, and a top spanning exactly the inner rectangle at the peak height.
   */
  lemma {:induction false} EnclosedRoofIsLid(b: Building, l: Level, r: Roof, isPhysics: bool)
    requires b.roofSlope != 0.0 && b.tileSize + b.wallThickness > 0.0 && r.x1 <= r.x2
    requires !OpenTopAlong(l, r.y1, r.x1, r.x2) && !OpenTopAlong(l, r.y2 + 1, r.x1, r.x2)
    requires !OpenLeftAlong(l, r.x1, r.y1, r.y2) && !OpenLeftAlong(l, r.x2 + 1, r.y1, r.y2)
    ensures var p := PlanRoof(b, l, r);
      && RoofPieces(p, isPhysics) == FlatTop(p)
      && |FlatTop(p)| == 2
      && p.x2a == p.xai && p.x2b == p.xbi && p.z2a == p.zai && p.z2b == p.zbi
  {
    var p := PlanRoof(b, l, r);
    var pitch := b.tileSize + b.wallThickness;
    var n1, n2 := 2 * r.x1 - b.width - 1, 2 * r.x2 - b.width + 1;
    assert p.xai == Times(n1, pitch) / 2.0 && p.xbi == Times(n2, pitch) / 2.0;
    BlockedEdgeIsFlush(b, l, r);
    TimesIsProduct(n1, pitch);
    TimesIsProduct(n2, pitch);
    assert n2 as real * pitch - n1 as real * pitch == (n2 - n1) as real * pitch;
    assert (n2 - n1) as real * pitch > 0.0;
    assert p.x2a != p.x2b;
  }

  /**
   * With all four sides drawn, a roof whose rise is capped by the maximum roof
   * height, at a slope of at most one half, keeps a flat top: the slopes stop
   * before they meet.
   */
  lemma {:induction false} CappedRoofKeepsTop(b: Building, l: Level, r: Roof)
    requires 0.0 < b.roofSlope <= 0.5 && 0.0 <= b.roofHeight
    requires OpenTopAlong(l, r.y1, r.x1, r.x2) && OpenTopAlong(l, r.y2 + 1, r.x1, r.x2)
    requires OpenLeftAlong(l, r.x1, r.y1, r.y2) && OpenLeftAlong(l, r.x2 + 1, r.y1, r.y2)
    requires var p := PlanRoof(b, l, r); b.roofHeight < b.roofSlope * p.dmin
    ensures |FlatTop(PlanRoof(b, l, r))| == 2
  {
    hide PlanRoof, OpenTopAlong, OpenLeftAlong, PlanFrom;
    var p := PlanRoof(b, l, r);
    BlockedEdgeIsFlush(b, l, r);
    CappedSlopesDoNotMeet(p.xa, p.xb, p.dmin, b.roofSlope, b.roofHeight);
  }

  /** Two slopes rising by less than half the span at slope at most one half stay apart. */
  lemma CappedSlopesDoNotMeet(xa: real, xb: real, dmin: real, s: real, h: real)
    requires 0.0 < s <= 0.5 && 0.0 <= h < s * dmin && 0.0 <= dmin <= Abs(xa - xb)
    ensures xa + h != xb - h
  {
    var slack := 0.5 - s;
    NonNegativeProduct(slack, dmin);
    assert slack * dmin == 0.5 * dmin - s * dmin;
    assert 2.0 * h < 2.0 * s * dmin <= dmin <= Abs(xa - xb);
  }

  lemma NonNegativeProduct(a: real, b: real)
    requires 0.0 <= a && 0.0 <= b
    ensures 0.0 <= a * b
  {
  }

  /** The triangles of one roof as a group draws it: textured, or for physics without trim. */
  ghost function RoofTriangles(b: Building, l: Level, r: Roof, isPhysics: bool): seq<Triangle>
    requires b.roofSlope != 0.0
  {
    Emitted(RoofPieces(PlanRoof(b, l, r), isPhysics))
  }

  /** The roofs of a level drawn by one group: `Some(m)` draws the textured roofs of material m, `None` all roofs for physics. */
  ghost function RoofsTriangles(b: Building, l: Level, roofs: seq<Roof>, material: Option<int>): seq<Triangle>
    requires b.roofSlope != 0.0
    decreases |roofs|
  {
    if roofs == [] then []
    else
      var r := roofs[|roofs| - 1];
      RoofsTriangles(b, l, roofs[..|roofs| - 1], material)
      + (match material
         case None => RoofTriangles(b, l, r, true)
         case Some(m) => if r.materialIndex == m then RoofTriangles(b, l, r, false) else [])
  }
}
