/**
 * Producer and consumer in step: the buffers the worker posts for a render,
 * fed one by one to the page's paint queue after the page has enqueued its
 * expectations for that render, fill exactly those items, each with the
 * buffers of the group it names, and leave the queue as it was before.
 */
module Agreement {
  import opened Wrappers
  import opened Protocol
  import opened BuildingModel
  import opened GroupSpec
  import opened MeshWorker
  import Q = PaintQueue

  /** The tag of the queue item that receives the buffers of a group of category `c`. */
  function TagFor(c: Category, exportMode: bool): (tag: Q.SegmentTag)
    ensures Q.IsPhysicsTag(tag) <==> c == Physics
  {
    match c
    case Floors => Q.Floors
    case Walls => Q.Walls
    case Roofs => Q.Roofs
    case All => Q.Building
    case Physics => if exportMode then Q.ExportPhysics else Q.Physics
  }

  /** Item i is new and expects group i: the tag of its category and its material number. */
  predicate Matched(items: seq<Q.PaintQueueItem>, gs: seq<GroupOut>, exportMode: bool)
  {
    && |items| == |gs|
    && forall i :: 0 <= i < |items| ==>
         && Q.IsNew(items[i])
         && items[i].segmentTag == TagFor(gs[i].category, exportMode)
         && items[i].materialNumb == gs[i].material
  }

  /** An item once its group's buffers are in: the positions as vertices, and the uvs unless it is physics. */
  function Deliver(item: Q.PaintQueueItem, g: GroupOut): Q.PaintQueueItem
  {
    if g.category == Physics then item.(vertices := Some(g.positions))
    else item.(vertices := Some(g.positions), uvs := Some(g.uvs))
  }

  function Delivered(items: seq<Q.PaintQueueItem>, gs: seq<GroupOut>): (r: seq<Q.PaintQueueItem>)
    requires |items| == |gs|
    ensures |r| == |items|
  {
    if items == [] then [] else [Deliver(items[0], gs[0])] + Delivered(items[1..], gs[1..])
  }

  /**
   * Matched items at the head of the queue take exactly their groups' buffers,
   * in posting order, without a throw; the items behind them are left as they were.
   */
  lemma {:induction false} FeedMatched(items: seq<Q.PaintQueueItem>, gs: seq<GroupOut>, exportMode: bool,
                                       rest: seq<Q.PaintQueueItem>)
    requires Matched(items, gs, exportMode)
    ensures Q.Feed(items + rest, Emit(gs)) == Q.Ok(Q.Fed(rest, Delivered(items, gs)))
    decreases |gs|
  {
    if gs == [] {
      assert items + rest == rest;
    } else {
      var tail := items[1..] + rest;
      assert items + rest == [items[0]] + tail;
      assert Matched(items[1..], gs[1..], exportMode);
      Q.FeedAppend(items + rest, EmitGroup(gs[0]), Emit(gs[1..]));
      if gs[0].category == Physics {
        Q.FeedOne(items[0], tail, gs[0].positions);
      } else {
        Q.FeedTwo(items[0], tail, gs[0].positions, gs[0].uvs);
      }
      FeedMatched(items[1..], gs[1..], exportMode, rest);
    }
  }

  lemma MatchedAppend(a: seq<Q.PaintQueueItem>, ga: seq<GroupOut>, b: seq<Q.PaintQueueItem>, gb: seq<GroupOut>,
                      exportMode: bool)
    requires Matched(a, ga, exportMode) && Matched(b, gb, exportMode)
    ensures Matched(a + b, ga + gb, exportMode)
  {
    assert forall i :: |a| <= i < |a| + |b| ==> (a + b)[i] == b[i - |a|] && (ga + gb)[i] == gb[i - |a|];
  }

  /** Group j of a component's outputs has the component's category and material j. */
  lemma {:induction false} ComponentOutputsAt(b: Building, segLevel: int, cat: Category, n: nat)
    requires b.roofSlope != 0.0 && SegmentLevel(b, segLevel)
    ensures forall j :: 0 <= j < n ==>
      ComponentOutputs(b, segLevel, cat, n)[j].category == cat && ComponentOutputs(b, segLevel, cat, n)[j].material == j
  {
    hide GroupTriangles;
    if n > 0 {
      ComponentOutputsAt(b, segLevel, cat, n - 1);
      var g := GroupOutput(b, segLevel, cat, n - 1);
      assert ComponentOutputs(b, segLevel, cat, n) == ComponentOutputs(b, segLevel, cat, n - 1) + [g];
    }
  }

  /** The page's items for one tag match the worker's groups of the corresponding component. */
  lemma ComponentMatched(b: Building, segLevel: int, cat: Category, n: nat, level: int, exportMode: bool)
    requires b.roofSlope != 0.0 && SegmentLevel(b, segLevel)
    requires cat != Physics || n == 1
    ensures Matched(if cat == Physics then [Q.NewItem(level, TagFor(cat, exportMode), 0)]
                    else Q.Items(level, TagFor(cat, exportMode), n),
                    ComponentOutputs(b, segLevel, cat, n), exportMode)
  {
    hide GroupTriangles, GroupOutput;
    ComponentOutputsAt(b, segLevel, cat, n);
  }

  /** A per-level segment posts its floors, walls, roofs and physics components in that order. */
  lemma EditOutputs(b: Building, level: int, m: nat)
    requires b.roofSlope != 0.0 && SegmentLevel(b, level)
    ensures SegmentOutputs(b, level, Categories(false), m) ==
      ComponentOutputs(b, level, Floors, m) + ComponentOutputs(b, level, Walls, m)
      + ComponentOutputs(b, level, Roofs, m) + ComponentOutputs(b, level, Physics, 1)
  {
    hide GroupTriangles, GroupOutput, ComponentOutputs;
    var c4 := Categories(false);
    var c3, c2, c1 := [Floors, Walls, Roofs], [Floors, Walls], [Floors];
    assert c4[..3] == c3 && c3[..2] == c2 && c2[..1] == c1 && c1[..0] == [];
    assert SegmentOutputs(b, level, c1, m) == [] + ComponentOutputs(b, level, Floors, m);
    assert SegmentOutputs(b, level, c2, m) == SegmentOutputs(b, level, c1, m) + ComponentOutputs(b, level, Walls, m);
    assert SegmentOutputs(b, level, c3, m) == SegmentOutputs(b, level, c2, m) + ComponentOutputs(b, level, Roofs, m);
    assert SegmentOutputs(b, level, c4, m) == SegmentOutputs(b, level, c3, m) + ComponentOutputs(b, level, Physics, 1);
  }

  /** The export segment posts its merged component, then its physics component. */
  lemma ExportOutputs(b: Building, m: nat)
    requires b.roofSlope != 0.0
    ensures SegmentOutputs(b, -1, Categories(true), m) ==
      ComponentOutputs(b, -1, All, m) + ComponentOutputs(b, -1, Physics, 1)
  {
    hide GroupTriangles, GroupOutput, ComponentOutputs;
    var c2, c1 := Categories(true), [All];
    assert c2[..1] == c1 && c1[..0] == [];
    assert SegmentOutputs(b, -1, c1, m) == [] + ComponentOutputs(b, -1, All, m);
    assert SegmentOutputs(b, -1, c2, m) == SegmentOutputs(b, -1, c1, m) + ComponentOutputs(b, -1, Physics, 1);
  }

  /**
   * An edit-mode render of one level with `m` materials: the page's items match
   * the groups the worker posts for that level, so its 2·3m + 1 buffers fill
   * exactly those items, each with its own group's buffers.
   */
  lemma LevelAgreement(b: Building, level: int, m: nat, rest: seq<Q.PaintQueueItem>)
    requires b.roofSlope != 0.0 && 0 <= level < |b.levels|
    ensures Matched(Q.Expected(false, level, m), SegmentOutputs(b, level, Categories(false), m), false)
    ensures |SegmentPost(b, level, m)| == 6 * m + 1 == Q.QueueBuffers(Q.Expected(false, level, m))
    ensures Q.Feed(Q.Expected(false, level, m) + rest, SegmentPost(b, level, m)) ==
      Q.Ok(Q.Fed(rest, Delivered(Q.Expected(false, level, m), SegmentOutputs(b, level, Categories(false), m))))
  {
    hide GroupTriangles, GroupOutput, ComponentOutputs, SegmentOutputs, Categories;
    var f, w, r, p := ComponentOutputs(b, level, Floors, m), ComponentOutputs(b, level, Walls, m),
                      ComponentOutputs(b, level, Roofs, m), ComponentOutputs(b, level, Physics, 1);
    var fi, wi, ri, pi := Q.Items(level, Q.Floors, m), Q.Items(level, Q.Walls, m),
                          Q.Items(level, Q.Roofs, m), [Q.NewItem(level, Q.Physics, 0)];
    EditOutputs(b, level, m);
    ComponentMatched(b, level, Floors, m, level, false);
    ComponentMatched(b, level, Walls, m, level, false);
    ComponentMatched(b, level, Roofs, m, level, false);
    ComponentMatched(b, level, Physics, 1, level, false);
    MatchedAppend(fi, f, wi, w, false);
    MatchedAppend(fi + wi, f + w, ri, r, false);
    MatchedAppend(fi + wi + ri, f + w + r, pi, p, false);
    assert Q.Expected(false, level, m) == fi + wi + ri + pi;
    var gs := SegmentOutputs(b, level, Categories(false), m);
    FeedMatched(Q.Expected(false, level, m), gs, false, rest);
    Q.ExpectedBuffers(false, level, m);
    EmitLength(gs);
    MatchedBuffers(Q.Expected(false, level, m), gs, false);
  }

  /** Matched items take as many buffers as their groups post. */
  lemma {:induction false} MatchedBuffers(items: seq<Q.PaintQueueItem>, gs: seq<GroupOut>, exportMode: bool)
    requires Matched(items, gs, exportMode)
    ensures Q.QueueBuffers(items) == BufferCount(gs)
    decreases |gs|
  {
    if gs != [] {
      assert Matched(items[1..], gs[1..], exportMode);
      MatchedBuffers(items[1..], gs[1..], exportMode);
    }
  }

  /**
   * The export segment's buffers with `m` materials fill exactly one level's
   * worth of export items (m `building` items and one `exportphysics` item).
   */
  lemma ExportAgreement(b: Building, level: int, m: nat, rest: seq<Q.PaintQueueItem>)
    requires b.roofSlope != 0.0
    ensures Matched(Q.Expected(true, level, m), SegmentOutputs(b, -1, Categories(true), m), true)
    ensures |SegmentPost(b, -1, m)| == 2 * m + 1 == Q.QueueBuffers(Q.Expected(true, level, m))
    ensures Q.Feed(Q.Expected(true, level, m) + rest, SegmentPost(b, -1, m)) ==
      Q.Ok(Q.Fed(rest, Delivered(Q.Expected(true, level, m), SegmentOutputs(b, -1, Categories(true), m))))
  {
    hide GroupTriangles, GroupOutput, ComponentOutputs, SegmentOutputs, Categories;
    var a, p := ComponentOutputs(b, -1, All, m), ComponentOutputs(b, -1, Physics, 1);
    var ai, pi := Q.Items(level, Q.Building, m), [Q.NewItem(level, Q.ExportPhysics, 0)];
    ExportOutputs(b, m);
    ComponentMatched(b, -1, All, m, level, true);
    ComponentMatched(b, -1, Physics, 1, level, true);
    MatchedAppend(ai, a, pi, p, true);
    assert Q.Expected(true, level, m) == ai + pi;
    var gs := SegmentOutputs(b, -1, Categories(true), m);
    FeedMatched(Q.Expected(true, level, m), gs, true, rest);
    Q.ExpectedBuffers(true, level, m);
    EmitLength(gs);
    MatchedBuffers(Q.Expected(true, level, m), gs, true);
  }

  /**
   * An edit-mode `renderall` over levels 0..n-1, each segment with `m` groups
   * per material component: the buffers fill the items `renderBuilding(false)`
   * enqueued, level by level, without a throw, and leave the queue as it was.
   */
  lemma {:induction false} AllLevelsAgreement(b: Building, lens: seq<nat>, n: nat, m: nat,
                                               rest: seq<Q.PaintQueueItem>)
    requires b.roofSlope != 0.0 && n <= |b.levels| && n <= |lens|
    requires forall i :: 0 <= i < n ==> lens[i] == m
    ensures Q.Feed(Q.AllLevelsExpected(false, n, m) + rest, LevelsPost(b, lens, n)).Ok?
    ensures Q.Feed(Q.AllLevelsExpected(false, n, m) + rest, LevelsPost(b, lens, n)).value.queue == rest
  {
    hide SegmentPost, Q.Expected, Delivered, SegmentOutputs, Categories, GroupTriangles, GroupOutput, Matched;
    if n == 0 {
      assert LevelsPost(b, lens, 0) == [];
      assert Q.AllLevelsExpected(false, 0, m) + rest == rest;
    } else {
      hide Q.Feed, LevelsPost, Q.AllLevelsExpected;
      AllLevelsAgreement(b, lens, n - 1, m, Q.Expected(false, n - 1, m) + rest);
      NextLevelAgreement(b, lens, n, m, rest);
    }
  }

  /** The step of `AllLevelsAgreement`: level n - 1's buffers fill the items the levels before left at the head. */
  lemma NextLevelAgreement(b: Building, lens: seq<nat>, n: nat, m: nat, rest: seq<Q.PaintQueueItem>)
    requires b.roofSlope != 0.0 && 1 <= n <= |b.levels| && n <= |lens| && lens[n - 1] == m
    requires var f := Q.Feed(Q.AllLevelsExpected(false, n - 1, m) + (Q.Expected(false, n - 1, m) + rest),
                             LevelsPost(b, lens, n - 1));
      f.Ok? && f.value.queue == Q.Expected(false, n - 1, m) + rest
    ensures Q.Feed(Q.AllLevelsExpected(false, n, m) + rest, LevelsPost(b, lens, n)).Ok?
    ensures Q.Feed(Q.AllLevelsExpected(false, n, m) + rest, LevelsPost(b, lens, n)).value.queue == rest
  {
    hide SegmentPost, Q.Expected, Delivered, SegmentOutputs, Categories, GroupTriangles, GroupOutput, Matched,
      Q.Feed, Q.QueueBuffers;
    var before, here := Q.AllLevelsExpected(false, n - 1, m), Q.Expected(false, n - 1, m);
    var posts, last := LevelsPost(b, lens, n - 1), SegmentPost(b, n - 1, m);
    assert Q.AllLevelsExpected(false, n, m) + rest == before + (here + rest);
    assert LevelsPost(b, lens, n) == posts + last;
    LevelAgreement(b, n - 1, m, rest);
    Q.FeedThen(before + (here + rest), posts, here + rest, last, rest);
  }

  /** The first `m + 1` items `renderBuilding` enqueues as written are level 0's. */
  lemma {:induction false} AllLevelsFront(exportMode: bool, n: nat, m: nat)
    requires n >= 1
    ensures Q.AllLevelsExpected(exportMode, n, m) ==
      Q.Expected(exportMode, 0, m) + Q.AllLevelsExpected(exportMode, n, m)[|Q.Expected(exportMode, 0, m)|..]
    ensures |Q.AllLevelsExpected(exportMode, n, m)| == n * |Q.Expected(exportMode, 0, m)|
  {
    hide Q.Expected;
    var e := Q.Expected(exportMode, 0, m);
    if n == 1 {
      assert Q.AllLevelsExpected(exportMode, 1, m) == [] + e;
    } else {
      AllLevelsFront(exportMode, n - 1, m);
      Q.ExpectedShape(exportMode, 0, m);
      Q.ExpectedShape(exportMode, n - 1, m);
      var a := Q.AllLevelsExpected(exportMode, n - 1, m);
      assert Q.AllLevelsExpected(exportMode, n, m) == a + Q.Expected(exportMode, n - 1, m);
      assert Q.AllLevelsExpected(exportMode, n, m)[..|e|] == a[..|e|] == e;
    }
  }

  /**
   * `renderBuilding(true)` as written enqueues export items for every level, but
   * `renderall` in export mode posts the export segment's buffers once: with
   * `n` levels, (n - 1)·(m + 1) items are still waiting when the worker is done,
   * and the buffers of the next render go to them.
   */
  lemma ExportAsWrittenLeavesItems(b: Building, n: nat, m: nat)
    requires b.roofSlope != 0.0 && n >= 1
    ensures Q.Feed(Q.AllLevelsExpected(true, n, m), SegmentPost(b, -1, m)).Ok?
    ensures Q.Feed(Q.AllLevelsExpected(true, n, m), SegmentPost(b, -1, m)).value.queue
      == Q.AllLevelsExpected(true, n, m)[m + 1..]
    ensures |Q.Feed(Q.AllLevelsExpected(true, n, m), SegmentPost(b, -1, m)).value.queue| == (n - 1) * (m + 1)
  {
    hide SegmentPost, Delivered, SegmentOutputs, Categories, GroupTriangles, GroupOutput;
    AllLevelsFront(true, n, m);
    Q.ExpectedShape(true, 0, m);
    var tail := Q.AllLevelsExpected(true, n, m)[m + 1..];
    ExportAgreement(b, 0, m, tail);
  }

  /**
   * The smallest case: two levels and one material. After the export render the
   * queue still holds level 1's `building` and `exportphysics` items.
   */
  lemma ExportTwoLevelsOneMaterial(b: Building)
    requires b.roofSlope != 0.0 && |b.levels| == 2
    ensures Q.Feed(Q.AllLevelsExpected(true, |b.levels|, 1), SegmentPost(b, -1, 1)).Ok?
    ensures Q.Feed(Q.AllLevelsExpected(true, |b.levels|, 1), SegmentPost(b, -1, 1)).value.queue
      == [Q.NewItem(1, Q.Building, 0), Q.NewItem(1, Q.ExportPhysics, 0)]
  {
    hide SegmentPost, Delivered, SegmentOutputs, Categories, GroupTriangles, GroupOutput;
    ExportAsWrittenLeavesItems(b, 2, 1);
    var e0, e1 := Q.Expected(true, 0, 1), Q.Expected(true, 1, 1);
    assert Q.AllLevelsExpected(true, 2, 1) == [] + e0 + e1;
    Q.ExpectedShape(true, 0, 1);
    Q.ExpectedShape(true, 1, 1);
    assert Q.AllLevelsExpected(true, 2, 1)[2..] == e1;
  }

  /**
   * `renderBuilding` as intended agrees with `renderall` in both modes: given a
   * worker whose segments all hold `m` groups per material component and which
   * has a segment for every level, the buffers it posts fill exactly the items
   * enqueued, without a throw, and the queue is back to what it was.
   */
  lemma RenderAllAgreement(w: Worker, exportMode: bool, m: nat, rest: seq<Q.PaintQueueItem>)
    requires w.Valid() && WellFormed(w.model)
    requires w.exportSegment.GroupsLength() == m
    requires forall i :: 0 <= i < |w.editorSegments| ==> w.editorSegments[i].GroupsLength() == m
    requires |w.model.levels| <= |w.editorSegments|
    ensures Q.Feed(Q.BuildingExpected(exportMode, |w.model.levels|, m) + rest, w.AllOutput(exportMode)).Ok?
    ensures Q.Feed(Q.BuildingExpected(exportMode, |w.model.levels|, m) + rest, w.AllOutput(exportMode)).value.queue
      == rest
  {
    hide SegmentPost, Delivered, SegmentOutputs, Categories, GroupTriangles, GroupOutput, WellFormed, w.Valid;
    WellFormedSlope(w.model);
    if exportMode {
      assert w.AllOutput(true) == SegmentPost(w.model, -1, m);
      ExportAgreement(w.model, -1, m, rest);
    } else {
      var lens := SegmentLengths(w.editorSegments);
      assert w.LevelsRendered() == |w.model.levels|;
      AllLevelsAgreement(w.model, lens, |w.model.levels|, m, rest);
    }
  }

  /**
   * A command that re-renders one level (`renderlevel` and the five edits):
   * when the level's segment holds `m` groups per material component, the
   * buffers `renderLevel` posts fill exactly the items the page enqueued for it.
   */
  lemma LevelOutputAgreement(w: Worker, level: int, m: nat, rest: seq<Q.PaintQueueItem>)
    requires w.Valid() && WellFormed(w.model)
    requires 0 <= level < |w.model.levels| && level < |w.editorSegments|
    requires w.editorSegments[level].GroupsLength() == m
    ensures Q.Feed(Q.Expected(false, level, m) + rest, w.LevelOutput(level)).Ok?
    ensures Q.Feed(Q.Expected(false, level, m) + rest, w.LevelOutput(level)).value.queue == rest
  {
    hide SegmentPost, Delivered, SegmentOutputs, Categories, GroupTriangles, GroupOutput, WellFormed, w.Valid;
    WellFormedSlope(w.model);
    assert w.LevelOutput(level) == SegmentPost(w.model, level, m);
    LevelAgreement(w.model, level, m, rest);
  }
}
