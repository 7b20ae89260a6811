/**
 * The mesh worker's state and message handler: the internal building model,
 * the export segment, one editor segment per level, the material group count
 * and the buffers posted back to the page, in posting order.
 */
module MeshWorker {
  import opened Wrappers
  import opened Geometry
  import opened BuildingModel
  import opened Protocol
  import opened GroupSpec
  import opened RenderGroups
  import opened Segments

  /** The buffers `renderLevel` posts for a segment of `segLevel` whose material components hold `len` groups. */
  ghost function SegmentPost(b: Building, segLevel: int, len: nat): seq<Buffer>
    requires b.roofSlope != 0.0 && SegmentLevel(b, segLevel)
  {
    Emit(SegmentOutputs(b, segLevel, Categories(segLevel == -1), len))
  }

  /** The buffers of levels 0..n-1 rendered one after the other, level i with `lens[i]` groups per material component. */
  ghost function LevelsPost(b: Building, lens: seq<nat>, n: nat): seq<Buffer>
    requires b.roofSlope != 0.0 && n <= |b.levels| && n <= |lens|
  {
    if n == 0 then [] else LevelsPost(b, lens, n - 1) + SegmentPost(b, n - 1, lens[n - 1])
  }

  /** Adding group j to the first j groups of a component adds that group's buffers to the posted ones. */
  lemma ComponentOutputsSnoc(b: Building, segLevel: int, cat: Category, j: nat)
    requires b.roofSlope != 0.0 && SegmentLevel(b, segLevel)
    ensures Emit(ComponentOutputs(b, segLevel, cat, j + 1))
         == Emit(ComponentOutputs(b, segLevel, cat, j)) + EmitGroup(GroupOutput(b, segLevel, cat, j))
  {
    var g := GroupOutput(b, segLevel, cat, j);
    EmitAppend(ComponentOutputs(b, segLevel, cat, j), [g]);
    assert Emit([g]) == EmitGroup(g) + Emit([]);
    AppendEmpty(EmitGroup(g));
  }

  /** The first k + 1 components post the first k components' buffers, then component k's. */
  lemma SegmentOutputsSnoc(b: Building, segLevel: int, cats: seq<Category>, k: nat, len: nat)
    requires b.roofSlope != 0.0 && SegmentLevel(b, segLevel) && k < |cats|
    ensures Emit(SegmentOutputs(b, segLevel, cats[..k + 1], len))
         == Emit(SegmentOutputs(b, segLevel, cats[..k], len))
            + Emit(ComponentOutputs(b, segLevel, cats[k], GroupCount(cats[k], len)))
  {
    assert cats[..k + 1][..k] == cats[..k];
    EmitAppend(SegmentOutputs(b, segLevel, cats[..k], len),
               ComponentOutputs(b, segLevel, cats[k], GroupCount(cats[k], len)));
  }

  /** The inner postback loop of `renderLevel` for one component: each group's buffers, in material order. */
  method PostComponent(c: RenderComponent, ghost b: Building, ghost segLevel: int) returns (out: seq<Buffer>)
    requires c.Valid() && c.level == segLevel && b.roofSlope != 0.0 && SegmentLevel(b, segLevel)
    requires ComponentRendered(c, b)
    ensures out == Emit(ComponentOutputs(b, segLevel, c.componentType, |c.materialGroups|))
  {
    hide GroupTriangles;
    out := [];
    for j := 0 to |c.materialGroups|
      invariant out == Emit(ComponentOutputs(b, segLevel, c.componentType, j))
    {
      var g := c.materialGroups[j];
      assert Rendered(g, b);
      RenderedOutput(g, b);
      ComponentOutputsSnoc(b, segLevel, c.componentType, j);
      if c.componentType != Physics {
        out := out + [g.renderedVertices.value, g.renderedUvs.value];
      } else {
        out := out + [g.renderedVertices.value];
      }
    }
  }

  /**
   * The postback loop of `renderLevel`: for each component in order and each of
   * its groups in material order, the group's vertices and then, unless the
   * component is physics, its texture coordinates.
   */
  method PostSegment(s: RenderSegment, ghost b: Building) returns (out: seq<Buffer>)
    requires s.Valid() && b.roofSlope != 0.0 && SegmentLevel(b, s.level)
    requires forall k :: 0 <= k < |s.components| ==> ComponentRendered(s.components[k], b)
    ensures out == SegmentPost(b, s.level, s.GroupsLength())
  {
    hide GroupTriangles;
    ghost var cats := Categories(s.exportMode);
    ghost var len := s.GroupsLength();
    out := [];
    for k := 0 to |s.components|
      invariant out == Emit(SegmentOutputs(b, s.level, cats[..k], len))
    {
      var c := s.components[k];
      assert |c.materialGroups| == GroupCount(cats[k], len);
      var buffers := PostComponent(c, b, s.level);
      SegmentOutputsSnoc(b, s.level, cats, k, len);
      out := out + buffers;
    }
    assert cats[..|cats|] == cats;
  }

  /** The body of `renderLevel` once the segment is chosen: render it, then post its groups' buffers. */
  method RenderAndPost(s: RenderSegment, b: Building) returns (out: seq<Buffer>)
    requires s.Valid() && WellFormed(b) && SegmentLevel(b, s.level)
    modifies s.Groups()
    ensures out == SegmentPost(b, s.level, s.GroupsLength())
  {
    assert b.roofSlope != 0.0;
    hide ComponentRendered, GroupTriangles, WellFormed;
    s.Render(b);
    out := PostSegment(s, b);
  }

  /** A new segment for `level`, set to `count` materials: the first two steps of `addLevel`. */
  method CreateSegment(level: int, count: int) returns (segment: RenderSegment)
    ensures fresh(segment) && forall k :: 0 <= k < |segment.components| ==> fresh(segment.components[k])
    ensures segment.level == level && segment.Valid() && segment.materialGroupsCount == count
    ensures segment.GroupsLength() == SyncedLength(0, 0, count)
  {
    segment := new RenderSegment(level);
    segment.SetGroups(count);
  }

  /** The components of a list of segments. */
  function ComponentsOf(segments: seq<RenderSegment>): set<RenderComponent>
  {
    set i, k | 0 <= i < |segments| && 0 <= k < |segments[i].components| :: segments[i].components[k]
  }

  /** Segment `s` is valid, has level `level` and counts `count` materials. */
  ghost predicate SegmentOk(s: RenderSegment, level: int, count: int)
    reads s, s.components
  {
    s.level == level && s.Valid() && s.materialGroupsCount == count
  }

  /** Editor segment i has level i, is valid and counts `count` materials. */
  ghost predicate EditorSegmentsOk(segments: seq<RenderSegment>, count: int)
    reads segments, ComponentsOf(segments)
  {
    forall i :: 0 <= i < |segments| ==> SegmentOk(segments[i], i, count)
  }

  /** Appending a valid segment for the next level keeps the list valid. */
  lemma EditorSegmentsSnoc(segments: seq<RenderSegment>, s: RenderSegment, count: int)
    requires EditorSegmentsOk(segments, count) && SegmentOk(s, |segments|, count)
    ensures EditorSegmentsOk(segments + [s], count)
  {
    var segments' := segments + [s];
    forall i | 0 <= i < |segments'|
      ensures SegmentOk(segments'[i], i, count)
    {
      if i < |segments| {
        assert segments'[i] == segments[i];
      }
    }
  }

  /** The material-component group counts of a list of segments, in list order. */
  ghost function SegmentLengths(segments: seq<RenderSegment>): (r: seq<nat>)
    reads segments, ComponentsOf(segments)
    ensures |r| == |segments|
    ensures forall i :: 0 <= i < |segments| ==> r[i] == segments[i].GroupsLength()
  {
    if segments == [] then []
    else
      assert forall i :: 0 <= i < |segments| - 1 ==> segments[..|segments| - 1][i] == segments[i];
      SegmentLengths(segments[..|segments| - 1]) + [segments[|segments| - 1].GroupsLength()]
  }

  /**
   * Midway through `setgroups` over the editor segments: segment j is valid, has
   * level j and, for j < done, counts `to` materials and holds
   * `SyncedLength(lens[j], from, to)` groups; the others still count `from` and
   * hold `lens[j]`.
   */
  ghost predicate SegmentsResizing(segments: seq<RenderSegment>, lens: seq<nat>, done: int, from: int, to: int)
    reads segments, ComponentsOf(segments)
  {
    && |lens| == |segments|
    && forall j :: 0 <= j < |segments| ==>
         && SegmentOk(segments[j], j, if j < done then to else from)
         && segments[j].GroupsLength() == if j < done then SyncedLength(lens[j], from, to) else lens[j]
  }

  /** One step of the `setgroups` loop over the editor segments: segment i is set to `to` materials. */
  method SyncSegment(segments: seq<RenderSegment>, ghost lens: seq<nat>, i: nat, ghost from: int, to: int)
    requires i < |segments| && SegmentsResizing(segments, lens, i, from, to)
    modifies segments[i], segments[i].components
    ensures SegmentsResizing(segments, lens, i + 1, from, to)
  {
    hide Categories;
    SegmentsApart(segments, lens, i, from, to);
    hide SegmentOk, RenderSegment.Valid, RenderSegment.GroupsLength;
    segments[i].SetGroups(to);
    SegmentOkIntro(segments[i], i, to);
  }

  /** Editor segment i is valid and shares neither itself nor a component with any other editor segment. */
  lemma SegmentsApart(segments: seq<RenderSegment>, lens: seq<nat>, i: nat, from: int, to: int)
    requires i < |segments| && SegmentsResizing(segments, lens, i, from, to)
    ensures segments[i].level == i && segments[i].Valid() && segments[i].materialGroupsCount == from
    ensures segments[i].GroupsLength() == lens[i]
    ensures forall j :: 0 <= j < |segments| && j != i ==>
      segments[j] != segments[i] && forall c :: c in segments[j].components ==> c !in segments[i].components
  {
    assert forall j :: 0 <= j < |segments| ==> segments[j].level == j && segments[j].Shape();
  }

  lemma SegmentOkIntro(s: RenderSegment, level: int, count: int)
    requires s.level == level && s.Valid() && s.materialGroupsCount == count
    ensures SegmentOk(s, level, count)
  {
  }

  /** The `setgroups` loop over the editor segments: every segment is set to `to` materials, in list order. */
  method SyncSegments(segments: seq<RenderSegment>, ghost lens: seq<nat>, ghost from: int, to: int)
    requires SegmentsResizing(segments, lens, 0, from, to)
    modifies segments, ComponentsOf(segments)
    ensures SegmentsResizing(segments, lens, |segments|, from, to)
  {
    for i := 0 to |segments|
      invariant SegmentsResizing(segments, lens, i, from, to)
    {
      SyncSegment(segments, lens, i, from, to);
    }
  }

  /** Before the `setgroups` loop over the editor segments, none is resized yet. */
  lemma StartResizing(segments: seq<RenderSegment>, from: int, to: int)
    requires EditorSegmentsOk(segments, from)
    ensures SegmentsResizing(segments, SegmentLengths(segments), 0, from, to)
  {
  }

  /** Once every editor segment is resized, the list is valid for the new count. */
  lemma ResizedSegmentsOk(segments: seq<RenderSegment>, lens: seq<nat>, from: int, to: int)
    requires SegmentsResizing(segments, lens, |segments|, from, to)
    ensures EditorSegmentsOk(segments, to)
    ensures forall i :: 0 <= i < |segments| ==> segments[i].GroupsLength() == SyncedLength(lens[i], from, to)
  {
  }

  /** The export segment (level -1) and its components are none of the editor segments' (levels 0 and up). */
  lemma ExportApart(e: RenderSegment, segments: seq<RenderSegment>, count: int)
    requires SegmentOk(e, -1, count) && EditorSegmentsOk(segments, count)
    ensures e !in segments
    ensures forall c :: c in e.components ==> c !in ComponentsOf(segments)
  {
    assert forall i :: 0 <= i < |segments| ==> segments[i].level == i && segments[i].Shape();
  }

  /**
   * The body of `setgroups` over the segments: the export segment `e`, then
   * every editor segment, set from `from` to `to` materials.
   */
  method SetAllGroups(e: RenderSegment, segments: seq<RenderSegment>, from: int, to: int)
    requires SegmentOk(e, -1, from) && EditorSegmentsOk(segments, from)
    modifies e, e.components, segments, ComponentsOf(segments)
    ensures SegmentOk(e, -1, to) && EditorSegmentsOk(segments, to)
    ensures e.GroupsLength() == SyncedLength(old(e.GroupsLength()), from, to)
    ensures forall i :: 0 <= i < |segments| ==>
      segments[i].GroupsLength() == SyncedLength(old(SegmentLengths(segments))[i], from, to)
  {
    hide SegmentsResizing, EditorSegmentsOk, SegmentLengths, Categories, RenderSegment.Valid;
    ghost var lens := SegmentLengths(segments);
    ExportApart(e, segments, from);
    e.SetGroups(to);
    StartResizing(segments, from, to);
    SyncSegments(segments, lens, from, to);
    ResizedSegmentsOk(segments, lens, from, to);
  }

  /**
   * The model after message `msg`, or `None` when the message throws before it
   * sets the model. `edited` is the result of the `Building.js` operation the
   * message runs (`loadJson`, `new Building()`, `addLevel`, `paintTiles`,
   * `paintWalls`, `addRoof`, `removeRoof`), or `None` when that operation
   * throws. A level edit reads `model.levels[level]` first, which throws for a
   * missing level; `setdoor` edits the model itself.
   */
  function NextModel(b: Building, msg: Message, edited: Option<Building>): (r: Option<Building>)
    ensures !(msg.LoadFile? || msg.ClearBuilding? || msg.AddLevel? || msg.IsLevelEdit()) ==> r == Some(b)
    ensures msg.IsLevelEdit() && r.Some? ==> 0 <= msg.level < |b.levels|
    ensures msg.SetDoor? ==> r == SetPortal(b, msg.level, msg.x, msg.y, msg.isTop, msg.fill)
  {
    if msg.LoadFile? || msg.ClearBuilding? || msg.AddLevel? then edited
    else if msg.SetDoor? then SetPortal(b, msg.level, msg.x, msg.y, msg.isTop, msg.fill)
    else if msg.IsLevelEdit() then (if 0 <= msg.level < |b.levels| then edited else None)
    else Some(b)
  }

  /** Setting a door to the flag it already has leaves the model as it was. */
  lemma SameDoorKeepsModel(b: Building, level: int, x: int, y: int, isTop: bool)
    requires WallAt(b, level, x, y, isTop).Some?
    ensures NextModel(b, SetDoor(level, x, y, isTop, WallAt(b, level, x, y, isTop).value.hasPortal), None) == Some(b)
  {
    SetPortalUnchanged(b, level, x, y, isTop);
  }

  class Worker {
    /** The building model the worker renders (`model`). */
    var model: Building
    /** One segment for the whole building, used by the export preview. */
    const exportSegment: RenderSegment
    /** One segment per level, in level order. */
    var editorSegments: seq<RenderSegment>
    /** The material count of the last `setgroups`, 0 before the first. */
    var groupCount: int

    /**
     * The export segment has level -1, editor segment i has level i, and every
     * segment is valid and counts `groupCount` materials.
     */
    ghost predicate Valid()
      reads this`editorSegments, this`groupCount, Footprint()
    {
      && SegmentOk(exportSegment, -1, groupCount)
      && EditorSegmentsOk(editorSegments, groupCount)
    }

    /** The worker as the script starts it: the given model, an empty export segment, no editor segments. */
    constructor (initial: Building)
      ensures Valid() && exportSegment.InSync()
      ensures model == initial && editorSegments == [] && groupCount == 0
    {
      model := initial;
      var segment := new RenderSegment(-1);
      exportSegment := segment;
      editorSegments := [];
      groupCount := 0;
    }

    /** The worker's segments and their components: everything `Valid` reads besides the worker itself. */
    ghost function Footprint(): set<object>
      reads this`editorSegments
    {
      {exportSegment} + (set k | 0 <= k < |exportSegment.components| :: exportSegment.components[k])
      + (set i | 0 <= i < |editorSegments| :: editorSegments[i]) + ComponentsOf(editorSegments)
    }

    /** All render groups of all segments. */
    ghost function Groups(): set<RenderGroup>
      reads this`editorSegments, Footprint()
    {
      exportSegment.Groups()
      + set i, g | 0 <= i < |editorSegments| && g in editorSegments[i].Groups() :: g
    }

    /** The worker object is none of its segments or components. */
    lemma WorkerApart()
      ensures this as object != exportSegment && this as object !in exportSegment.components
      ensures this as object !in editorSegments && this as object !in ComponentsOf(editorSegments)
    {
    }

    /** `renderLevel(level)` finds its level in the model and its segment: -1, or a level both have. */
    predicate Renderable(level: int)
      reads this
    {
      level == -1 || (0 <= level < |model.levels| && level < |editorSegments|)
    }

    /** The segment `renderLevel(level)` uses: the export segment for -1, else the level's editor segment. */
    ghost function Segment(level: int): RenderSegment
      reads this`editorSegments
      requires level == -1 || 0 <= level < |editorSegments|
    {
      if level == -1 then exportSegment else editorSegments[level]
    }

    /**
     * What `renderLevel(level)` posts: the buffers of its segment's groups for
     * the current model, or nothing when the level is not renderable.
     */
    ghost function LevelOutput(level: int): seq<Buffer>
      reads this, Footprint()
      requires Valid() && WellFormed(model)
    {
      if Renderable(level) then SegmentPost(model, level, Segment(level).GroupsLength()) else []
    }

    /**
     * What `renderall` posts: the export segment's buffers in export mode, else
     * the levels' buffers in level order up to the first level without a segment.
     */
    ghost function AllOutput(exportMode: bool): seq<Buffer>
      reads this, Footprint()
      requires Valid() && WellFormed(model)
    {
      if exportMode then LevelOutput(-1)
      else LevelsPost(model, SegmentLengths(editorSegments), LevelsRendered())
    }

    /** How many levels `renderall` renders before it reaches a level without a segment, which throws. */
    function LevelsRendered(): (n: nat)
      reads this
      ensures n <= |model.levels| && n <= |editorSegments|
      ensures n == |model.levels| || n == |editorSegments|
    {
      if |model.levels| <= |editorSegments| then |model.levels| else |editorSegments|
    }

    /** Validity, the group set and every segment's group count depend only on the worker, its segments and their components. */
    twostate lemma Kept()
      requires old(Valid()) && unchanged(old(Footprint()))
      requires editorSegments == old(editorSegments) && groupCount == old(groupCount)
      ensures Valid() && Groups() == old(Groups())
      ensures SegmentLengths(editorSegments) == old(SegmentLengths(editorSegments))
      ensures exportSegment.GroupsLength() == old(exportSegment.GroupsLength())
    {
    }

    /** The segment of a renderable level is valid, has that level and fits the model. */
    lemma SegmentOfLevel(level: int)
      requires Valid() && Renderable(level)
      ensures Segment(level).Valid() && Segment(level).level == level && SegmentLevel(model, level)
    {
    }

    /**
     * Rendering one of the worker's segments changes only its groups, which are
     * among all groups and are neither the worker nor any segment or component.
     */
    lemma SegmentGroupsApart(s: RenderSegment)
      requires s == exportSegment || s in editorSegments
      ensures s.Groups() <= Groups()
      ensures this as object !in s.Groups()
      ensures forall o: object :: o in Footprint() ==> o !in s.Groups() && allocated(o)
    {
    }

    /**
     * `addLevel`: a new editor segment for the next level index, set to the group
     * count, appended to the list.
     */
    method AddLevel()
      requires Valid()
      modifies this
      ensures Valid()
      ensures model == old(model) && groupCount == old(groupCount)
      ensures |editorSegments| == |old(editorSegments)| + 1
      ensures editorSegments[..|old(editorSegments)|] == old(editorSegments)
      ensures editorSegments[|old(editorSegments)|].GroupsLength() == SyncedLength(0, 0, groupCount)
    {
      hide Categories, RenderSegment.Valid;
      var segment := CreateSegment(|editorSegments|, groupCount);
      EditorSegmentsSnoc(editorSegments, segment, groupCount);
      editorSegments := editorSegments + [segment];
    }

    /**
     * The `setgroups` command: stores the count and sets the export segment and
     * every editor segment to it; each segment's group count moves from its old
     * count to the new one as `SyncedLength` gives.
     */
    method SetGroupCount(count: int)
      requires Valid()
      modifies this, Footprint()
      ensures Valid() && groupCount == count
      ensures model == old(model) && editorSegments == old(editorSegments)
      ensures exportSegment.GroupsLength() == SyncedLength(old(exportSegment.GroupsLength()), old(groupCount), count)
      ensures forall i :: 0 <= i < |editorSegments| ==>
        editorSegments[i].GroupsLength() == SyncedLength(old(SegmentLengths(editorSegments))[i], old(groupCount), count)
    {
      hide SegmentOk, EditorSegmentsOk, SegmentLengths, RenderSegment.GroupsLength;
      var from := groupCount;
      WorkerApart();
      groupCount := count;
      SetAllGroups(exportSegment, editorSegments, from, count);
    }

    /**
     * `renderLevel(level)`: renders the export segment (level -1) or the level's
     * editor segment and returns the buffers it posts, in posting order. A level
     * the model or the segment list lacks throws before anything is posted.
     */
    method RenderLevel(level: int) returns (ok: bool, buffers: seq<Buffer>)
      requires Valid() && WellFormed(model)
      modifies Groups()
      ensures Valid() && unchanged(this) && Groups() == old(Groups())
      ensures SegmentLengths(editorSegments) == old(SegmentLengths(editorSegments))
      ensures exportSegment.GroupsLength() == old(exportSegment.GroupsLength())
      ensures ok <==> Renderable(level)
      ensures buffers == LevelOutput(level)
    {
      hide SegmentPost, WellFormed, GroupTriangles, SegmentLengths, Valid, Categories;
      if !(level == -1 || (0 <= level < |model.levels| && level < |editorSegments|)) {
        return false, [];
      }
      var segment := if level == -1 then exportSegment else editorSegments[level];
      SegmentOfLevel(level);
      SegmentGroupsApart(segment);
      buffers := RenderAndPost(segment, model);
      Kept();
      ok := true;
    }

    /**
     * `renderall`: in export mode renders the export segment; otherwise renders
     * each level in turn, stopping (with a throw) at the first level that has no
     * editor segment. Returns the buffers posted, in posting order.
     */
    method RenderAll(exportMode: bool) returns (ok: bool, buffers: seq<Buffer>)
      requires Valid() && WellFormed(model)
      modifies Groups()
      ensures Valid() && unchanged(this) && Groups() == old(Groups())
      ensures SegmentLengths(editorSegments) == old(SegmentLengths(editorSegments))
      ensures exportSegment.GroupsLength() == old(exportSegment.GroupsLength())
      ensures ok <==> exportMode || |model.levels| <= |editorSegments|
      ensures buffers == AllOutput(exportMode)
    {
      hide SegmentPost, WellFormed, GroupTriangles, SegmentLengths, Groups, Valid, LevelsPost, LevelOutput;
      WellFormedSlope(model);
      if exportMode {
        ok, buffers := RenderLevel(-1);
      } else {
        buffers := RenderLevels(LevelsRendered());
        ok := LevelsRendered() == |model.levels|;
      }
    }

    /** The level loop of `renderall`: levels 0..n-1 in turn (the source throws at the first level without a segment). */
    method RenderLevels(n: nat) returns (buffers: seq<Buffer>)
      requires Valid() && WellFormed(model) && n <= |model.levels| && n <= |editorSegments|
      modifies Groups()
      ensures Valid() && unchanged(this) && Groups() == old(Groups())
      ensures SegmentLengths(editorSegments) == old(SegmentLengths(editorSegments))
      ensures exportSegment.GroupsLength() == old(exportSegment.GroupsLength())
      ensures buffers == LevelsPost(model, SegmentLengths(editorSegments), n)
    {
      hide SegmentPost, WellFormed, GroupTriangles, SegmentLengths, Groups, Valid;
      WellFormedSlope(model);
      ghost var lens := SegmentLengths(editorSegments);
      buffers := [];
      for i := 0 to n
        invariant Valid() && unchanged(this) && Groups() == old(Groups())
        invariant SegmentLengths(editorSegments) == lens
        invariant exportSegment.GroupsLength() == old(exportSegment.GroupsLength())
        invariant buffers == LevelsPost(model, lens, i)
      {
        var _, levelBuffers := RenderLevel(i);
        buffers := buffers + levelBuffers;
      }
    }

    /**
     * `loadfile` once the file is parsed into `loaded`: the model is replaced,
     * the editor segments are dropped and one new segment per level is added,
     * each set to the current group count.
     */
    method LoadModel(loaded: Building)
      requires Valid()
      modifies this
      ensures Valid() && model == loaded && groupCount == old(groupCount)
      ensures |editorSegments| == |loaded.levels|
      ensures forall i :: 0 <= i < |editorSegments| ==> editorSegments[i].GroupsLength() == SyncedLength(0, 0, groupCount)
    {
      hide SegmentOk, RenderSegment.GroupsLength, RenderSegment.Valid;
      model := loaded;
      editorSegments := [];
      for i := 0 to |model.levels|
        invariant Valid() && model == loaded && groupCount == old(groupCount)
        invariant |editorSegments| == i
        invariant forall j :: 0 <= j < i ==> editorSegments[j].GroupsLength() == SyncedLength(0, 0, groupCount)
      {
        WorkerApart();
        AddLevel();
      }
    }

    /**
     * `clearbuilding`: the model is replaced by a new, empty building and the
     * editor segments are dropped, so only the export segment can be rendered
     * until levels are added.
     */
    method ClearModel(empty: Building)
      requires Valid()
      modifies this
      ensures Valid() && model == empty && editorSegments == [] && groupCount == old(groupCount)
      ensures forall level :: Renderable(level) <==> level == -1
    {
      model := empty;
      editorSegments := [];
    }

    /** Stores a new model; the segments are left as they are. */
    method SetModel(b: Building)
      requires Valid()
      modifies this
      ensures Valid() && model == b && editorSegments == old(editorSegments) && groupCount == old(groupCount)
      ensures SegmentLengths(editorSegments) == old(SegmentLengths(editorSegments))
      ensures exportSegment.GroupsLength() == old(exportSegment.GroupsLength())
      ensures Groups() == old(Groups())
    {
      WorkerApart();
      model := b;
      Kept();
    }

    /** A level edit once the model is edited: the new model is stored and the level re-rendered. */
    method EditLevel(level: int, next: Building) returns (buffers: seq<Buffer>)
      requires Valid() && WellFormed(next)
      modifies this, Groups()
      ensures Valid() && model == next && editorSegments == old(editorSegments) && groupCount == old(groupCount)
      ensures SegmentLengths(editorSegments) == old(SegmentLengths(editorSegments))
      ensures buffers == LevelOutput(level)
    {
      hide SegmentPost, GroupTriangles, LevelOutput, Valid, SegmentLengths, Footprint, Groups, WellFormed;
      SetModel(next);
      var _, out := RenderLevel(level);
      buffers := out;
    }

    /**
     * The worker's message handler: applies `msg` to the model and the
     * segments and returns the buffers it posts, in posting order. `edited`
     * stands for the result of the `Building.js` operation the message runs
     * (see `NextModel`); a message that throws leaves the state as it was at
     * the throw and posts what it posted before it.
     */
    method HandleMessage(msg: Message, edited: Option<Building>) returns (out: seq<Buffer>)
      requires Valid() && WellFormed(model)
      requires edited.Some? ==> WellFormed(edited.value)
      requires msg.ClearBuilding? ==> edited.Some?
      modifies this, Footprint(), Groups()
      ensures Valid() && WellFormed(model)
      ensures NextModel(old(model), msg, edited).Some? ==> model == NextModel(old(model), msg, edited).value
      ensures NextModel(old(model), msg, edited).None? ==> model == old(model)
      ensures groupCount == if msg.SetGroups? then msg.count else old(groupCount)
      ensures msg.RenderAll? ==> out == AllOutput(msg.exportMode)
      ensures msg.RenderLevel? ==> out == LevelOutput(msg.level)
      ensures msg.IsLevelEdit() ==>
        out == if NextModel(old(model), msg, edited).Some? then LevelOutput(msg.level) else []
      ensures !(msg.RenderAll? || msg.RenderLevel? || msg.IsLevelEdit()) ==> out == []
      ensures msg.LoadFile? && edited.Some? ==>
        && |editorSegments| == |model.levels|
        && forall i :: 0 <= i < |editorSegments| ==> editorSegments[i].GroupsLength() == SyncedLength(0, 0, groupCount)
      ensures msg.ClearBuilding? ==> editorSegments == []
      ensures msg.AddLevel? && edited.Some? ==>
        && |editorSegments| == |old(editorSegments)| + 1
        && editorSegments[..|old(editorSegments)|] == old(editorSegments)
        && editorSegments[|old(editorSegments)|].GroupsLength() == SyncedLength(0, 0, groupCount)
      ensures msg.SetGroups? ==>
        && editorSegments == old(editorSegments)
        && exportSegment.GroupsLength() == SyncedLength(old(exportSegment.GroupsLength()), old(groupCount), msg.count)
        && forall i :: 0 <= i < |editorSegments| ==>
             editorSegments[i].GroupsLength() == SyncedLength(old(SegmentLengths(editorSegments))[i], old(groupCount), msg.count)
      ensures !(msg.LoadFile? || msg.ClearBuilding? || msg.AddLevel? || msg.SetGroups?) ==>
        editorSegments == old(editorSegments) && SegmentLengths(editorSegments) == old(SegmentLengths(editorSegments))
    {
      hide SegmentPost, GroupTriangles, LevelOutput, AllOutput, Valid, SegmentLengths, Footprint, Groups;
      out := [];
      var next := NextModel(model, msg, edited);
      match msg {
        case LoadFile(_) =>
          if next.Some? {
            LoadModel(next.value);
          }
        case ClearBuilding =>
          ClearModel(next.value);
        case AddLevel =>
          if next.Some? {
            SetModel(next.value);
            AddLevel();
          }
        case RenderAll(exportMode) =>
          var _, buffers := RenderAll(exportMode);
          out := buffers;
        case RenderLevel(level) =>
          var _, buffers := RenderLevel(level);
          out := buffers;
        case SetGroups(count) =>
          SetGroupCount(count);
        case SetDoor(level, x, y, isTop, fill) =>
          if next.Some? {
            SetPortalWellFormed(model, level, x, y, isTop, fill);
            out := EditLevel(level, next.value);
          }
        case DrawTiles(level, _, _, _, _, _, _, _, _) =>
          if next.Some? {
            out := EditLevel(level, next.value);
          }
        case DrawWalls(level, _, _, _, _, _, _, _, _) =>
          if next.Some? {
            out := EditLevel(level, next.value);
          }
        case AddRoof(level, _, _, _, _, _) =>
          if next.Some? {
            out := EditLevel(level, next.value);
          }
        case RemoveRoof(level, _, _) =>
          if next.Some? {
            out := EditLevel(level, next.value);
          }
        case Unknown(_) =>
      }
    }
  }
}
