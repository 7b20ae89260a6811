/**
 * The page side of the worker protocol: the paint queue of expected buffers.
 * Before every render command the page enqueues one item per mesh it expects
 * back, in the order the worker posts them; each buffer that arrives fills the
 * item at the head of the queue, and a complete item leaves the queue.
 */
module PaintQueue {
  import opened Wrappers
  import Protocol
  import Geometry

  /** A buffer posted by the worker. */
  type Buffer = Protocol.Buffer

  /** The `segmentTag` of a queue item: which mesh of the scene the buffers replace. */
  datatype SegmentTag = Floors | Walls | Roofs | Physics | Building | ExportPhysics

  /** Physics items carry positions only, so they are complete after one buffer. */
  predicate IsPhysicsTag(tag: SegmentTag)
  {
    tag == Physics || tag == ExportPhysics
  }

  /** A `_PaintQueueItem`: what it expects, and the buffers received for it so far (`null` until then). */
  datatype PaintQueueItem = PaintQueueItem(
    level: int, segmentTag: SegmentTag, materialNumb: int,
    vertices: Option<Buffer>, uvs: Option<Buffer>)

  /** A newly constructed item: no buffers yet. */
  function NewItem(level: int, tag: SegmentTag, materialNumb: int): (item: PaintQueueItem)
    ensures item.vertices.None? && item.uvs.None?
  {
    PaintQueueItem(level, tag, materialNumb, None, None)
  }

  predicate IsNew(item: PaintQueueItem)
  {
    item.vertices.None? && item.uvs.None?
  }

  /** A material of the editor's list; `index` is its position in that list once added. */
  datatype Material = Material(name: string, texture: Option<string>, index: int)

  /** Items for materials 0..m-1 of one tag, in ascending material order. */
  function Items(level: int, tag: SegmentTag, m: nat): (r: seq<PaintQueueItem>)
    ensures |r| == m
    ensures forall i :: 0 <= i < m ==> r[i] == NewItem(level, tag, i)
  {
    if m == 0 then [] else Items(level, tag, m - 1) + [NewItem(level, tag, m - 1)]
  }

  /**
   * The items `_prepareForLevelRender` enqueues for `level` with `m` loaded
   * materials: m `building` items and one `exportphysics` item in export mode;
   * otherwise m `floors`, m `walls` and m `roofs` items, then one `physics` item.
   */
  function Expected(exportMode: bool, level: int, m: nat): seq<PaintQueueItem>
  {
    if exportMode then Items(level, Building, m) + [NewItem(level, ExportPhysics, 0)]
    else Items(level, Floors, m) + Items(level, Walls, m) + Items(level, Roofs, m) + [NewItem(level, Physics, 0)]
  }

  /**
   * The order the items stand in: by tag, then by ascending material, all new
   * and of the given level, with the one physics item last.
   */
  lemma ExpectedShape(exportMode: bool, level: int, m: nat)
    ensures var r := Expected(exportMode, level, m);
      && |r| == (if exportMode then m + 1 else 3 * m + 1)
      && (forall i :: 0 <= i < |r| ==> IsNew(r[i]) && r[i].level == level)
      && (forall i :: 0 <= i < |r| ==> (IsPhysicsTag(r[i].segmentTag) <==> i == |r| - 1))
      && (exportMode ==> (forall i :: 0 <= i < m ==> r[i] == NewItem(level, Building, i))
                         && r[m] == NewItem(level, ExportPhysics, 0))
      && (!exportMode ==>
           && (forall i :: 0 <= i < m ==> r[i] == NewItem(level, Floors, i))
           && (forall i :: 0 <= i < m ==> r[m + i] == NewItem(level, Walls, i))
           && (forall i :: 0 <= i < m ==> r[2 * m + i] == NewItem(level, Roofs, i))
           && r[3 * m] == NewItem(level, Physics, 0))
  {
  }

  /** The items `renderBuilding` enqueues as written: `Expected` for every level 0..levels-1, in level order. */
  function AllLevelsExpected(exportMode: bool, levels: nat, m: nat): seq<PaintQueueItem>
  {
    if levels == 0 then []
    else AllLevelsExpected(exportMode, levels - 1, m) + Expected(exportMode, levels - 1, m)
  }

  /**
   * The items `renderBuilding` should enqueue: the worker renders the export
   * segment (level -1) once, so export mode expects its buffers once; edit mode
   * expects every level's.
   */
  function BuildingExpected(exportMode: bool, levels: nat, m: nat): (r: seq<PaintQueueItem>)
    ensures exportMode ==> |r| == m + 1
    ensures !exportMode ==> r == AllLevelsExpected(false, levels, m)
  {
    if exportMode then Expected(true, -1, m) else AllLevelsExpected(false, levels, m)
  }

  /** The number of buffers an item takes before it leaves the queue. */
  function ItemBuffers(item: PaintQueueItem): nat
  {
    if IsPhysicsTag(item.segmentTag) then 1 else 2
  }

  /** The number of buffers a queue of new items takes before it is empty. */
  function QueueBuffers(q: seq<PaintQueueItem>): nat
  {
    if q == [] then 0 else ItemBuffers(q[0]) + QueueBuffers(q[1..])
  }

  lemma {:induction false} QueueBuffersAppend(a: seq<PaintQueueItem>, b: seq<PaintQueueItem>)
    ensures QueueBuffers(a + b) == QueueBuffers(a) + QueueBuffers(b)
  {
    if a == [] {
      assert a + b == b;
    } else {
      assert (a + b)[1..] == a[1..] + b;
      QueueBuffersAppend(a[1..], b);
    }
  }

  lemma {:induction false} ItemsBuffers(level: int, tag: SegmentTag, m: nat)
    ensures QueueBuffers(Items(level, tag, m)) == if IsPhysicsTag(tag) then m else 2 * m
  {
    if m > 0 {
      ItemsBuffers(level, tag, m - 1);
      QueueBuffersAppend(Items(level, tag, m - 1), [NewItem(level, tag, m - 1)]);
      assert [NewItem(level, tag, m - 1)][1..] == [];
    }
  }

  /** One level's items take 2·3m + 1 buffers in edit mode and 2m + 1 in export mode. */
  lemma ExpectedBuffers(exportMode: bool, level: int, m: nat)
    ensures QueueBuffers(Expected(exportMode, level, m)) == if exportMode then 2 * m + 1 else 6 * m + 1
  {
    var p := [NewItem(level, if exportMode then ExportPhysics else Physics, 0)];
    assert p[1..] == [];
    assert QueueBuffers(p) == 1;
    if exportMode {
      ItemsBuffers(level, Building, m);
      QueueBuffersAppend(Items(level, Building, m), p);
    } else {
      var f, w, r := Items(level, Floors, m), Items(level, Walls, m), Items(level, Roofs, m);
      ItemsBuffers(level, Floors, m);
      ItemsBuffers(level, Walls, m);
      ItemsBuffers(level, Roofs, m);
      QueueBuffersAppend(f, w);
      QueueBuffersAppend(f + w, r);
      QueueBuffersAppend(f + w + r, p);
    }
  }

  /** Why `processData` throws. */
  datatype QueueError = QueueEmpty | HeadSaturated

  /** A value, or the exception a JavaScript call throws. */
  datatype Result<T> = Ok(value: T) | Throw(error: QueueError)

  /** The queue after one buffer, and the item that left it, if any. */
  datatype Step = Step(queue: seq<PaintQueueItem>, completed: Option<PaintQueueItem>)

  /** The head item after receiving `data`: the first buffer is its vertices, the second its uvs. */
  function Fill(item: PaintQueueItem, data: Buffer): (r: Option<PaintQueueItem>)
    ensures r.None? <==> item.vertices.Some? && item.uvs.Some?
    ensures r.Some? ==>
      r.value.level == item.level && r.value.segmentTag == item.segmentTag && r.value.materialNumb == item.materialNumb
    ensures r.Some? && item.vertices.None? ==> r.value.vertices == Some(data) && r.value.uvs == item.uvs
    ensures r.Some? && item.vertices.Some? ==> r.value.vertices == item.vertices && r.value.uvs == Some(data)
  {
    if item.vertices.None? then Some(item.(vertices := Some(data)))
    else if item.uvs.None? then Some(item.(uvs := Some(data)))
    else None
  }

  /** An item leaves the queue once it has uvs, or at once if it is a physics item. */
  predicate Complete(item: PaintQueueItem)
  {
    item.uvs.Some? || IsPhysicsTag(item.segmentTag)
  }

  /**
   * The queue logic of `processData`: throw on an empty queue or a head that
   * already has both buffers; otherwise fill the head and shift it off once it
   * is complete. A throw changes nothing.
   */
  function Receive(q: seq<PaintQueueItem>, data: Buffer): (r: Result<Step>)
    ensures q == [] <==> r == Throw(QueueEmpty)
    ensures r == Throw(HeadSaturated) <==> q != [] && q[0].vertices.Some? && q[0].uvs.Some?
    ensures r.Ok? && r.value.completed.Some? ==> r.value.queue == q[1..]
    ensures r.Ok? && r.value.completed.None? ==> |r.value.queue| == |q| && r.value.queue[1..] == q[1..]
    ensures r.Ok? && IsNew(q[0]) ==> (r.value.completed.Some? <==> IsPhysicsTag(q[0].segmentTag))
    ensures r.Ok? && q[0].vertices.Some? ==> r.value.completed.Some?
  {
    if q == [] then Throw(QueueEmpty)
    else match Fill(q[0], data)
      case None => Throw(HeadSaturated)
      case Some(next) =>
        if Complete(next) then Ok(Step(q[1..], Some(next)))
        else Ok(Step([next] + q[1..], None))
  }

  /** A run of the page's queue logic over buffers: the remaining queue and the items completed, in order. */
  datatype Fed = Fed(queue: seq<PaintQueueItem>, done: seq<PaintQueueItem>)

  /** The completed item of a step, as a list of zero or one items. */
  function Completed(o: Option<PaintQueueItem>): seq<PaintQueueItem>
  {
    if o.Some? then [o.value] else []
  }

  /** `processData` applied to each buffer in turn; the first throw ends the run. */
  function Feed(q: seq<PaintQueueItem>, buffers: seq<Buffer>): Result<Fed>
    decreases |buffers|
  {
    if buffers == [] then Ok(Fed(q, []))
    else match Receive(q, buffers[0])
      case Throw(e) => Throw(e)
      case Ok(s) =>
        match Feed(s.queue, buffers[1..])
        case Throw(e) => Throw(e)
        case Ok(f) => Ok(Fed(f.queue, Completed(s.completed) + f.done))
  }

  /** Feeding `a` then `b` is feeding `a + b`. */
  lemma {:induction false} FeedAppend(q: seq<PaintQueueItem>, a: seq<Buffer>, b: seq<Buffer>)
    ensures Feed(q, a + b) ==
      match Feed(q, a)
      case Throw(e) => Throw(e)
      case Ok(f) =>
        match Feed(f.queue, b)
        case Throw(e) => Throw(e)
        case Ok(g) => Ok(Fed(g.queue, f.done + g.done))
    decreases |a|
  {
    if a == [] {
      assert a + b == b;
      assert Feed(q, a) == Ok(Fed(q, []));
      match Feed(q, b)
      case Throw(e) =>
      case Ok(g) =>
        assert [] + g.done == g.done;
    } else {
      assert (a + b)[0] == a[0];
      assert (a + b)[1..] == a[1..] + b;
      match Receive(q, a[0])
      case Throw(e) =>
      case Ok(s) =>
        FeedAppend(s.queue, a[1..], b);
        match Feed(s.queue, a[1..])
        case Throw(e) =>
        case Ok(f) =>
          match Feed(f.queue, b)
          case Throw(e) =>
          case Ok(g) =>
            assert Completed(s.completed) + (f.done + g.done) == (Completed(s.completed) + f.done) + g.done;
    }
  }

  /** Two runs that each go through without a throw, the second from where the first left the queue, go through together. */
  lemma FeedThen(q: seq<PaintQueueItem>, a: seq<Buffer>, mid: seq<PaintQueueItem>, b: seq<Buffer>,
                 rest: seq<PaintQueueItem>)
    requires Feed(q, a).Ok? && Feed(q, a).value.queue == mid
    requires Feed(mid, b).Ok? && Feed(mid, b).value.queue == rest
    ensures Feed(q, a + b).Ok? && Feed(q, a + b).value.queue == rest
  {
    FeedAppend(q, a, b);
  }

  /** A new non-physics item at the head takes two buffers, vertices then uvs, and then leaves. */
  lemma FeedTwo(item: PaintQueueItem, rest: seq<PaintQueueItem>, positions: Buffer, uvs: Buffer)
    requires IsNew(item) && !IsPhysicsTag(item.segmentTag)
    ensures Feed([item] + rest, [positions, uvs])
      == Ok(Fed(rest, [item.(vertices := Some(positions), uvs := Some(uvs))]))
  {
    var half := item.(vertices := Some(positions));
    var full := half.(uvs := Some(uvs));
    assert ([item] + rest)[1..] == rest;
    assert Receive([item] + rest, positions) == Ok(Step([half] + rest, None));
    assert ([half] + rest)[1..] == rest;
    assert Receive([half] + rest, uvs) == Ok(Step(rest, Some(full)));
    assert [uvs][1..] == [];
    assert Feed(rest, []) == Ok(Fed(rest, []));
    assert Feed([half] + rest, [uvs]) == Ok(Fed(rest, [full] + []));
    assert [positions, uvs][1..] == [uvs];
    assert Feed([item] + rest, [positions, uvs]) == Ok(Fed(rest, [] + ([full] + [])));
    assert [] + ([full] + []) == [full];
  }

  /** A new physics item at the head takes one buffer and leaves. */
  lemma FeedOne(item: PaintQueueItem, rest: seq<PaintQueueItem>, positions: Buffer)
    requires IsNew(item) && IsPhysicsTag(item.segmentTag)
    ensures Feed([item] + rest, [positions]) == Ok(Fed(rest, [item.(vertices := Some(positions))]))
  {
    var full := item.(vertices := Some(positions));
    assert ([item] + rest)[1..] == rest;
    assert Receive([item] + rest, positions) == Ok(Step(rest, Some(full)));
    assert [positions][1..] == [];
    assert Feed(rest, []) == Ok(Fed(rest, []));
    assert Feed([item] + rest, [positions]) == Ok(Fed(rest, [full] + []));
    assert [full] + [] == [full];
  }

  class Renderer {
    /** `allMazeBuilderMaterials`: the editor's materials, each at the position its index names. */
    var materials: seq<Material>
    /** `_textureLoadQueue`: materials whose textures the next `loadTextures` loads. */
    var textureLoadQueue: seq<Material>
    /** The length of `allThreeMaterials`: one entry per texture that has loaded or failed to load. */
    var loadedMaterials: nat
    /** `_paintQueue`. */
    var queue: seq<PaintQueueItem>
    /** The length of `sceneLibraries`: one per level the page has meshes for. */
    var sceneLibraries: nat

    /** Every material's index is its position in the list. */
    ghost predicate Valid()
      reads this
    {
      forall i :: 0 <= i < |materials| ==> materials[i].index == i
    }

    constructor ()
      ensures Valid()
      ensures materials == [] && textureLoadQueue == [] && loadedMaterials == 0 && queue == []
      ensures sceneLibraries == 0
    {
      materials := [];
      textureLoadQueue := [];
      loadedMaterials := 0;
      queue := [];
      sceneLibraries := 0;
    }

    /** `addMaterial`: the material gets the next index and joins the list and the texture load queue. */
    method AddMaterial(material: Material) returns (index: nat)
      requires Valid()
      modifies this`materials, this`textureLoadQueue
      ensures Valid()
      ensures index == |old(materials)|
      ensures materials == old(materials) + [material.(index := index)]
      ensures textureLoadQueue == old(textureLoadQueue) + [material.(index := index)]
      ensures loadedMaterials == old(loadedMaterials) && queue == old(queue)
    {
      index := |materials|;
      var added := material.(index := index);
      materials := materials + [added];
      textureLoadQueue := textureLoadQueue + [added];
    }

    /** A texture load settles: `allThreeMaterials` gains its material, or `null` when loading failed. */
    method TextureSettled()
      modifies this`loadedMaterials
      ensures loadedMaterials == old(loadedMaterials) + 1
      ensures materials == old(materials) && textureLoadQueue == old(textureLoadQueue) && queue == old(queue)
    {
      loadedMaterials := loadedMaterials + 1;
    }

    /** One loop of `_prepareForLevelRender`: items for materials 0..m-1 of one tag. */
    method EnqueueItems(level: int, tag: SegmentTag, m: nat)
      modifies this`queue
      ensures queue == old(queue) + Items(level, tag, m)
    {
      for i := 0 to m
        invariant queue == old(queue) + Items(level, tag, i)
      {
        Geometry.AppendAssoc(old(queue), Items(level, tag, i), [NewItem(level, tag, i)]);
        queue := queue + [NewItem(level, tag, i)];
      }
    }

    /** `_prepareForLevelRender`: enqueues the items the worker's buffers for `level` will fill. */
    method PrepareForLevelRender(exportMode: bool, level: int)
      modifies this`queue
      ensures queue == old(queue) + Expected(exportMode, level, loadedMaterials)
    {
      var m := loadedMaterials;
      if exportMode {
        EnqueueItems(level, Building, m);
        var p := [NewItem(level, ExportPhysics, 0)];
        Geometry.AppendAssoc(old(queue), Items(level, Building, m), p);
        queue := queue + p;
      } else {
        var q0 := queue;
        EnqueueItems(level, Floors, m);
        EnqueueItems(level, Walls, m);
        EnqueueItems(level, Roofs, m);
        var f, w, r := Items(level, Floors, m), Items(level, Walls, m), Items(level, Roofs, m);
        var p := [NewItem(level, Physics, 0)];
        Geometry.AppendAssoc(q0, f, w);
        Geometry.AppendAssoc(q0, f + w, r);
        Geometry.AppendAssoc(q0, f + w + r, p);
        queue := queue + p;
      }
    }

    /**
     * The queue logic of `processData` for one buffer from the worker: the item
     * that leaves the queue (which the page then turns into a mesh), or the throw.
     */
    method ProcessData(data: Buffer) returns (r: Result<Option<PaintQueueItem>>)
      modifies this`queue
      ensures old(queue) == [] ==> r == Throw(QueueEmpty) && queue == old(queue)
      ensures match Receive(old(queue), data)
        case Throw(e) => r == Throw(e) && queue == old(queue)
        case Ok(s) => r == Ok(s.completed) && queue == s.queue
    {
      if queue == [] {
        return Throw(QueueEmpty);
      }
      var next := queue[0];
      if next.vertices.None? {
        next := next.(vertices := Some(data));
      } else if next.uvs.None? {
        next := next.(uvs := Some(data));
      } else {
        return Throw(HeadSaturated);
      }
      if next.uvs.Some? || next.segmentTag == Physics || next.segmentTag == ExportPhysics {
        queue := queue[1..];
        r := Ok(Some(next));
      } else {
        queue := [next] + queue[1..];
        r := Ok(None);
      }
    }

    /**
     * `renderBuilding` as written: `_prepareForLevelRender` for every level,
     * also in export mode, then the `renderall` message.
     */
    method RenderBuildingAsWritten(exportMode: bool, levels: nat) returns (msg: Protocol.Message)
      modifies this`queue
      ensures queue == old(queue) + AllLevelsExpected(exportMode, levels, loadedMaterials)
      ensures msg == Protocol.RenderAll(exportMode)
    {
      hide Expected;
      for i := 0 to levels
        invariant queue == old(queue) + AllLevelsExpected(exportMode, i, loadedMaterials)
      {
        Geometry.AppendAssoc(old(queue), AllLevelsExpected(exportMode, i, loadedMaterials),
                             Expected(exportMode, i, loadedMaterials));
        PrepareForLevelRender(exportMode, i);
      }
      msg := Protocol.RenderAll(exportMode);
    }

    /**
     * `renderBuilding` as intended: in export mode the items for the export
     * segment once, otherwise every level's items; then the `renderall` message.
     */
    method RenderBuilding(exportMode: bool, levels: nat) returns (msg: Protocol.Message)
      modifies this`queue
      ensures queue == old(queue) + BuildingExpected(exportMode, levels, loadedMaterials)
      ensures msg == Protocol.RenderAll(exportMode)
    {
      hide Expected;
      if exportMode {
        PrepareForLevelRender(true, -1);
      } else {
        for i := 0 to levels
          invariant queue == old(queue) + AllLevelsExpected(false, i, loadedMaterials)
        {
          Geometry.AppendAssoc(old(queue), AllLevelsExpected(false, i, loadedMaterials),
                               Expected(false, i, loadedMaterials));
          PrepareForLevelRender(false, i);
        }
      }
      msg := Protocol.RenderAll(exportMode);
    }

    /** `renderLevel`: the level's items, then the `renderlevel` message. */
    method RenderLevel(level: int) returns (msg: Protocol.Message)
      modifies this`queue
      ensures queue == old(queue) + Expected(false, level, loadedMaterials)
      ensures msg == Protocol.RenderLevel(level)
    {
      PrepareForLevelRender(false, level);
      msg := Protocol.RenderLevel(level);
    }

    /** `setFloor`: the level's items, then the `drawtiles` message. */
    method SetFloor(filled: bool, level: int, x1: int, y1: int, x2: int, y2: int,
                    tMaterial: int, bMaterial: int, wMaterial: int) returns (msg: Protocol.Message)
      modifies this`queue
      ensures queue == old(queue) + Expected(false, level, loadedMaterials)
      ensures msg == Protocol.DrawTiles(level, x1, y1, x2, y2, filled, tMaterial, bMaterial, wMaterial)
    {
      PrepareForLevelRender(false, level);
      msg := Protocol.DrawTiles(level, x1, y1, x2, y2, filled, tMaterial, bMaterial, wMaterial);
    }

    /** `setDoor`: the level's items, then the `setdoor` message. */
    method SetDoor(filled: bool, level: int, x: int, y: int, isTop: bool) returns (msg: Protocol.Message)
      modifies this`queue
      ensures queue == old(queue) + Expected(false, level, loadedMaterials)
      ensures msg == Protocol.SetDoor(level, x, y, isTop, filled)
    {
      PrepareForLevelRender(false, level);
      msg := Protocol.SetDoor(level, x, y, isTop, filled);
    }

    /** `setWall`: the level's items, then the `drawwalls` message. */
    method SetWall(filled: bool, level: int, wallMode: Protocol.WallMode, x1: int, y1: int, x2: int, y2: int,
                   iMaterial: int, oMaterial: int) returns (msg: Protocol.Message)
      modifies this`queue
      ensures queue == old(queue) + Expected(false, level, loadedMaterials)
      ensures msg == Protocol.DrawWalls(level, wallMode, x1, y1, x2, y2, filled, iMaterial, oMaterial)
    {
      PrepareForLevelRender(false, level);
      msg := Protocol.DrawWalls(level, wallMode, x1, y1, x2, y2, filled, iMaterial, oMaterial);
    }

    /** `addRoof`: the level's items, then the `addroof` message. */
    method AddRoof(level: int, x1: int, y1: int, x2: int, y2: int, material: int) returns (msg: Protocol.Message)
      modifies this`queue
      ensures queue == old(queue) + Expected(false, level, loadedMaterials)
      ensures msg == Protocol.AddRoof(level, x1, y1, x2, y2, material)
    {
      PrepareForLevelRender(false, level);
      msg := Protocol.AddRoof(level, x1, y1, x2, y2, material);
    }

    /** `addLevel`: a scene library for the new level, then the `addlevel` message; nothing is enqueued. */
    method AddLevel() returns (msg: Protocol.Message)
      modifies this`sceneLibraries
      ensures sceneLibraries == old(sceneLibraries) + 1
      ensures msg == Protocol.AddLevel
    {
      sceneLibraries := sceneLibraries + 1;
      msg := Protocol.AddLevel;
    }

    /** `removeRoof`: the level's items, then the `removeroof` message. */
    method RemoveRoof(level: int, x: int, y: int) returns (msg: Protocol.Message)
      modifies this`queue
      ensures queue == old(queue) + Expected(false, level, loadedMaterials)
      ensures msg == Protocol.RemoveRoof(level, x, y)
    {
      PrepareForLevelRender(false, level);
      msg := Protocol.RemoveRoof(level, x, y);
    }
  }
}
