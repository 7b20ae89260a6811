/**
 * Geometry primitives of the mesh worker: a textured vertex, a triangle with its
 * winding flip, the two-triangle quad emitted by `square`, and the flat position
 * and texture-coordinate buffers that `compile` lays out.
 */
module Geometry {

  /** A vertex in space (x, y, z) with its texture coordinate (u, v). */
  datatype Vertex = Vertex(x: real, y: real, z: real, u: real, v: real)

  /** Three vertices in winding order. */
  datatype Triangle = Triangle(v1: Vertex, v2: Vertex, v3: Vertex)
  {
    /** The same vertices facing the opposite direction. */
    function Flip(): Triangle
    {
      Triangle(v1, v3, v2)
    }
  }

  /** Flipping keeps the first vertex, swaps the other two, and undoes itself. */
  lemma FlipInvolutive(t: Triangle)
    ensures t.Flip().v1 == t.v1 && t.Flip().v2 == t.v3 && t.Flip().v3 == t.v2
    ensures t.Flip().Flip() == t
    ensures t.Flip() == t <==> t.v2 == t.v3
  {
  }

  /** What `twoWayTriangle(t)` appends: the triangle, then its flip. */
  function TwoWay(t: Triangle): (r: seq<Triangle>)
    ensures |r| == 2 && r[0] == t && r[1] == t.Flip()
  {
    [t, t.Flip()]
  }

  /**
   * A list made only of two-way pairs: every even-position triangle is followed
   * by its own flip, so the surface is visible from both sides.
   */
  ghost predicate TwoWayClosed(s: seq<Triangle>)
    decreases |s|
  {
    s == [] || (|s| >= 2 && s[1] == s[0].Flip() && TwoWayClosed(s[2..]))
  }

  lemma {:induction false} TwoWayClosedAppend(a: seq<Triangle>, b: seq<Triangle>)
    requires TwoWayClosed(a) && TwoWayClosed(b)
    ensures TwoWayClosed(a + b)
    decreases |a|
  {
    if a == [] {
      assert a + b == b;
    } else {
      assert (a + b)[0] == a[0] && (a + b)[1] == a[1];
      assert (a + b)[2..] == a[2..] + b;
      TwoWayClosedAppend(a[2..], b);
    }
  }

  /** A two-way closed list has even length and pairs each triangle with its flip. */
  lemma {:induction false} TwoWayClosedPairs(s: seq<Triangle>, k: nat)
    requires TwoWayClosed(s) && k < |s| / 2
    ensures |s| % 2 == 0 && s[2 * k + 1] == s[2 * k].Flip()
    decreases |s|
  {
    if k > 0 {
      TwoWayClosedPairs(s[2..], k - 1);
    } else {
      TwoWayClosedEven(s);
    }
  }

  lemma {:induction false} TwoWayClosedEven(s: seq<Triangle>)
    requires TwoWayClosed(s)
    ensures |s| % 2 == 0
    decreases |s|
  {
    if s != [] {
      TwoWayClosedEven(s[2..]);
    }
  }

  /**
   * The two triangles `square(x1, y1, z1, x2, y2, z2)` emits for the axis-aligned
   * rectangle with opposite corners (x1, y1, z1) and (x2, y2, z2). A horizontal
   * quad (y1 == y2) takes its texture coordinates from (x, z); an upright one takes
   * U from x when x varies and from z otherwise, and V from y.
   */
  function Square(x1: real, y1: real, z1: real, x2: real, y2: real, z2: real): seq<Triangle>
  {
    var dx, dy, dz := x2 - x1, y2 - y1, z2 - z1;
    var x0, y0, z0 := x1, y1, z1;
    var u0 := if dy == 0.0 then x0 else if dx != 0.0 then x0 else z0;
    var v0 := if dy == 0.0 then z0 + dz else y0 + dy;
    var u1 := if dy == 0.0 then x0 + dx else if dx != 0.0 then x0 + dx else z0 + dz;
    var v1 := if dy == 0.0 then z0 + dz else y0 + dy;
    var u2 := if dy == 0.0 then x0 + dx else if dx != 0.0 then x0 + dx else z0 + dz;
    var v2 := if dy == 0.0 then z0 else y0;
    var u3 := if dy == 0.0 then x0 else if dx != 0.0 then x0 else z0;
    var v3 := if dy == 0.0 then z0 else y0;
    var a := Vertex(x1, y2, if y1 == y2 then z2 else z1, u0, v0);
    var b := Vertex(x2, y1, if y1 == y2 then z1 else z2, u2, v2);
    [Triangle(a, b, Vertex(x2, y2, z2, u1, v1)),
     Triangle(a, Vertex(x1, y1, z1, u3, v3), b)]
  }

  /** The texture coordinate a quad's vertex gets, as a function of its position alone. */
  ghost predicate AxisMapped(v: Vertex, horizontal: bool, alongX: bool)
  {
    if horizontal then v.u == v.x && v.v == v.z
    else if alongX then v.u == v.x && v.v == v.y
    else v.u == v.z && v.v == v.y
  }

  ghost predicate VerticesOf(t: Triangle, P: Vertex -> bool)
  {
    P(t.v1) && P(t.v2) && P(t.v3)
  }

  /**
   * `square` emits exactly two triangles that share their first vertex and the
   * diagonal between it and the corner (x2, y1, ·); every vertex is a corner of the
   * rectangle; and every texture coordinate is the position projected on the
   * quad's plane, so adjacent quads of one orientation tile seamlessly.
   */
  lemma SquareShape(x1: real, y1: real, z1: real, x2: real, y2: real, z2: real)
    ensures var r := Square(x1, y1, z1, x2, y2, z2);
      && |r| == 2
      && r[0].v1 == r[1].v1 && r[0].v2 == r[1].v3
      && r[1].v2.x == x1 && r[1].v2.y == y1 && r[1].v2.z == z1
      && r[0].v3.x == x2 && r[0].v3.y == y2 && r[0].v3.z == z2
      && r[0].v1.x == x1 && r[0].v1.y == y2 && r[0].v2.x == x2 && r[0].v2.y == y1
      && (forall k :: 0 <= k < 2 ==>
            VerticesOf(r[k], v => AxisMapped(v, y1 == y2, x1 != x2)))
  {
  }

  /** The nine position entries `compile` writes for one triangle, vertex by vertex. */
  function TrianglePositions(t: Triangle): (r: seq<real>)
    ensures |r| == 9
  {
    [t.v1.x, t.v1.y, t.v1.z, t.v2.x, t.v2.y, t.v2.z, t.v3.x, t.v3.y, t.v3.z]
  }

  /** The six texture-coordinate entries `compile` writes for one triangle. */
  function TriangleUvs(t: Triangle): (r: seq<real>)
    ensures |r| == 6
  {
    [t.v1.u, t.v1.v, t.v2.u, t.v2.v, t.v3.u, t.v3.v]
  }

  /** The position buffer of a triangle list: nine entries per triangle, in list order. */
  function Positions(ts: seq<Triangle>): (r: seq<real>)
    ensures |r| == 9 * |ts|
  {
    if ts == [] then [] else TrianglePositions(ts[0]) + Positions(ts[1..])
  }

  /** The texture-coordinate buffer of a triangle list: six entries per triangle. */
  function Uvs(ts: seq<Triangle>): (r: seq<real>)
    ensures |r| == 6 * |ts|
  {
    if ts == [] then [] else TriangleUvs(ts[0]) + Uvs(ts[1..])
  }

  /** Entry 9i + j of the position buffer is entry j of triangle i's positions. */
  lemma {:induction false} PositionsAt(ts: seq<Triangle>, i: nat, j: nat)
    requires i < |ts| && j < 9
    ensures Positions(ts)[9 * i + j] == TrianglePositions(ts[i])[j]
  {
    if i > 0 {
      PositionsAt(ts[1..], i - 1, j);
    }
  }

  /** Entry 6i + j of the texture-coordinate buffer is entry j of triangle i's UVs. */
  lemma {:induction false} UvsAt(ts: seq<Triangle>, i: nat, j: nat)
    requires i < |ts| && j < 6
    ensures Uvs(ts)[6 * i + j] == TriangleUvs(ts[i])[j]
  {
    if i > 0 {
      UvsAt(ts[1..], i - 1, j);
    }
  }

  /** Compiling a concatenation concatenates the buffers: list order is kept. */
  lemma {:induction false} PositionsAppend(a: seq<Triangle>, b: seq<Triangle>)
    ensures Positions(a + b) == Positions(a) + Positions(b)
    ensures Uvs(a + b) == Uvs(a) + Uvs(b)
  {
    if a == [] {
      assert a + b == b;
    } else {
      assert (a + b)[0] == a[0];
      assert (a + b)[1..] == a[1..] + b;
      PositionsAppend(a[1..], b);
    }
  }

  /** The empty sequence is the unit of appending. */
  lemma AppendEmpty<T>(a: seq<T>)
    ensures a + [] == a && [] + a == a
  {
  }

  /** Appending is associative; stated for the append loops, whose proofs would otherwise go element by element. */
  lemma AppendAssoc<T>(a: seq<T>, b: seq<T>, c: seq<T>)
    ensures (a + b) + c == a + (b + c)
  {
  }
}
