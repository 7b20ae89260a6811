/**
 * The message protocol between the editor page and the mesh worker: the commands
 * the page posts, and the order in which the worker posts result buffers back.
 * Buffers carry no tag, so the consumer can only match them by this order.
 */
module Protocol {

  /** A posted result buffer (a `Float32Array` in the source). */
  type Buffer = seq<real>

  /**
   * The component types of a render segment: per-level segments have floors,
   * walls, roofs and physics; the export segment has one merged "all" and physics.
   */
  datatype Category = Floors | Walls | Roofs | Physics | All

  /** The component order of a segment, as its `components` getter lists them. */
  function Categories(exportMode: bool): (r: seq<Category>)
    ensures Physics in r && r[|r| - 1] == Physics
    ensures forall k :: 0 <= k < |r| - 1 ==> r[k] != Physics
    ensures forall i, j :: 0 <= i < j < |r| ==> r[i] != r[j]
    ensures exportMode ==> All in r
    ensures !exportMode ==> All !in r && Floors in r && Walls in r && Roofs in r
  {
    if exportMode then [All, Physics] else [Floors, Walls, Roofs, Physics]
  }

  /**
   * The number of groups a component holds when the segment's material count
   * is `count`: one for physics, `count` (never below zero) for the others.
   */
  function GroupCount(c: Category, count: int): (n: nat)
    ensures c == Physics ==> n == 1
    ensures c != Physics && count >= 0 ==> n == count
    ensures c != Physics && count < 0 ==> n == 0
  {
    if c == Physics then 1 else if count < 0 then 0 else count
  }

  /** The compiled buffers of one render group, tagged for reasoning only. */
  datatype GroupOut = GroupOut(category: Category, material: nat, positions: Buffer, uvs: Buffer)

  /** The buffers posted for one group: positions, then UVs unless the group is physics. */
  function EmitGroup(g: GroupOut): (r: seq<Buffer>)
    ensures |r| == if g.category == Physics then 1 else 2
    ensures r[0] == g.positions
    ensures g.category != Physics ==> r[1] == g.uvs
  {
    if g.category == Physics then [g.positions] else [g.positions, g.uvs]
  }

  /** The buffers posted for a list of groups, in list order. */
  function Emit(gs: seq<GroupOut>): seq<Buffer>
  {
    if gs == [] then [] else EmitGroup(gs[0]) + Emit(gs[1..])
  }

  /** Two buffers per non-physics group, one per physics group. */
  function BufferCount(gs: seq<GroupOut>): nat
  {
    if gs == [] then 0 else |EmitGroup(gs[0])| + BufferCount(gs[1..])
  }

  lemma {:induction false} EmitLength(gs: seq<GroupOut>)
    ensures |Emit(gs)| == BufferCount(gs)
  {
    if gs != [] {
      EmitLength(gs[1..]);
    }
  }

  lemma {:induction false} EmitAppend(a: seq<GroupOut>, b: seq<GroupOut>)
    ensures Emit(a + b) == Emit(a) + Emit(b)
  {
    if a == [] {
      assert a + b == b;
    } else {
      assert (a + b)[0] == a[0];
      assert (a + b)[1..] == a[1..] + b;
      EmitAppend(a[1..], b);
    }
  }

  /** The kind of wall a `drawwalls` command paints: 1 north, 2 west, 3 NE-SW, 4 NW-SE. */
  type WallMode = int

  /**
   * The commands the page posts to the worker, one per message tag; `Unknown`
   * stands for any other tag, which the worker logs and ignores.
   */
  datatype Message =
    | LoadFile(content: string)
    | ClearBuilding
    | RenderAll(exportMode: bool)
    | RenderLevel(level: int)
    | SetGroups(count: int)
    | DrawTiles(level: int, x1: int, y1: int, x2: int, y2: int, fill: bool,
                tMaterial: int, bMaterial: int, wMaterial: int)
    | DrawWalls(level: int, wallMode: WallMode, x1: int, y1: int, x2: int, y2: int,
                fill: bool, iMaterial: int, oMaterial: int)
    | SetDoor(level: int, x: int, y: int, isTop: bool, fill: bool)
    | AddRoof(level: int, x1: int, y1: int, x2: int, y2: int, material: int)
    | RemoveRoof(level: int, x: int, y: int)
    | AddLevel
    | Unknown(tag: string)
  {
    /** The commands that edit one level of the model and then re-render it. */
    predicate IsLevelEdit()
    {
      DrawTiles? || DrawWalls? || SetDoor? || AddRoof? || RemoveRoof?
    }
  }
}
