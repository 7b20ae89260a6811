/**
 * `RenderComponent` (one group per material for one component type) and
 * `RenderSegment` (the components of one level, or of the whole building in
 * export mode), with the group-count bookkeeping that keeps them in step with
 * the page's material list.
 */
module Segments {
  import opened Wrappers
  import opened Geometry
  import opened BuildingModel
  import opened Protocol
  import opened GroupSpec
  import opened RenderGroups

  /** Group `g` holds what `render` leaves in it for model `b`: its triangles and both compiled buffers. */
  ghost predicate Rendered(g: RenderGroup, b: Building)
    reads g
  {
    && b.roofSlope != 0.0 && SegmentLevel(b, g.level)
    && g.triangles == GroupTriangles(b, g.level, g.componentType, g.materialNumber)
    && g.renderedVertices == Some(Positions(g.triangles))
    && g.renderedUvs == Some(Uvs(g.triangles))
  }

  /** The buffers a rendered group posts, tagged with its type and material. */
  ghost function OutputOf(g: RenderGroup): GroupOut
    reads g
    requires g.renderedVertices.Some? && g.renderedUvs.Some?
  {
    GroupOut(g.componentType, g.materialNumber, g.renderedVertices.value, g.renderedUvs.value)
  }

  /** A rendered group outputs exactly the specified buffers of its level, type and material. */
  lemma RenderedOutput(g: RenderGroup, b: Building)
    requires Rendered(g, b)
    ensures OutputOf(g) == GroupOutput(b, g.level, g.componentType, g.materialNumber)
  {
  }

  /**
   * The group count a segment reaches from `len` groups per material component
   * when `setGroups(to)` runs with the count at `from`: adding always adds, but
   * removing from an empty list (JavaScript `pop` on `[]`) removes nothing.
   */
  function SyncedLength(len: nat, from: int, to: int): nat
  {
    if from > to then (if len >= from - to then len - (from - to) else 0)
    else len + (to - from)
  }

  /** From a count in step with the groups, setting a non-negative count leaves them in step. */
  lemma SyncedFromInSync(len: nat, to: int)
    requires to >= 0
    ensures SyncedLength(len, len, to) == to
  {
  }

  /**
   * A negative count empties the material components, but the next `setGroups`
   * counts up from the negative value: after `setGroups(-1)` and then
   * `setGroups(2)` each material component holds three groups.
   */
  lemma NegativeCountOvershoots()
    ensures SyncedLength(0, 0, -1) == 0
    ensures SyncedLength(SyncedLength(0, 0, -1), -1, 2) == 3
  {
  }

  /** Every group of component `c` holds what `render` leaves in it for model `b`. */
  ghost predicate ComponentRendered(c: RenderComponent, b: Building)
    reads c, c.materialGroups
  {
    forall i :: 0 <= i < |c.materialGroups| ==> Rendered(c.materialGroups[i], b)
  }

  class RenderComponent {
    const level: int
    const componentType: Category
    var materialGroups: seq<RenderGroup>

    /** Group i draws material i, at this component's level and type. */
    ghost predicate Valid()
      reads this
    {
      forall i :: 0 <= i < |materialGroups| ==>
        && materialGroups[i].materialNumber == i
        && materialGroups[i].level == level
        && materialGroups[i].componentType == componentType
    }

    /** A physics component starts with its one group; the others start empty. */
    constructor (level: int, componentType: Category)
      ensures this.level == level && this.componentType == componentType && Valid()
      ensures |materialGroups| == if componentType == Physics then 1 else 0
    {
      this.level := level;
      this.componentType := componentType;
      materialGroups := [];
      new;
      if componentType == Physics {
        AddGroup();
      }
    }

    /** Appends a new, empty group for the next material number. */
    method AddGroup()
      requires Valid()
      modifies this
      ensures Valid()
      ensures |materialGroups| == |old(materialGroups)| + 1
      ensures materialGroups[..|old(materialGroups)|] == old(materialGroups)
      ensures materialGroups[|materialGroups| - 1].triangles == []
    {
      var g := new RenderGroup(level, componentType, |materialGroups|);
      materialGroups := materialGroups + [g];
    }

    /** Drops the last group; an empty list stays empty. */
    method RemoveGroup()
      requires Valid()
      modifies this
      ensures Valid()
      ensures materialGroups == if old(materialGroups) == [] then [] else old(materialGroups)[..|old(materialGroups)| - 1]
    {
      if materialGroups != [] {
        materialGroups := materialGroups[..|materialGroups| - 1];
      }
    }

    /** Renders every group, in material order. */
    method Render(b: Building)
      requires Valid() && WellFormed(b) && SegmentLevel(b, level)
      modifies materialGroups
      ensures forall i :: 0 <= i < |materialGroups| ==> Rendered(materialGroups[i], b)
    {
      hide GroupTriangles;
      for i := 0 to |materialGroups|
        invariant forall j :: 0 <= j < i ==> Rendered(materialGroups[j], b)
      {
        materialGroups[i].Render(b);
      }
    }
  }

  class RenderSegment {
    /** A level index, or -1 for the export segment that renders the whole building. */
    const level: int
    const exportMode: bool
    /** The `components` getter: [all, physics] in export mode, else [floors, walls, roofs, physics]. */
    const components: seq<RenderComponent>
    var materialGroupsCount: int

    /**
     * The components follow `Categories`, share the segment's level, number
     * their groups by material, the physics component (the last) has its single
     * group and the material components all have the same number of groups.
     */
    ghost predicate Valid()
      reads this, components
    {
      && Shape()
      && (forall k :: 0 <= k < |components| ==> components[k].Valid())
      && |components[|components| - 1].materialGroups| == 1
      && (forall k :: 0 <= k < |components| - 1 ==>
            |components[k].materialGroups| == |components[0].materialGroups|)
    }

    /** The components follow `Categories` and share the segment's level; this never changes. */
    ghost predicate Shape()
    {
      && exportMode == (level == -1)
      && |components| == |Categories(exportMode)|
      && (forall k :: 0 <= k < |components| ==>
            components[k].componentType == Categories(exportMode)[k] && components[k].level == level)
    }

    /** The number of groups each material component holds (the first component's; there is always one). */
    ghost function GroupsLength(): nat
      reads this, components
    {
      if components == [] then 0 else |components[0].materialGroups|
    }

    /** The material components hold exactly `materialGroupsCount` groups. */
    ghost predicate InSync()
      reads this, components
    {
      materialGroupsCount >= 0 && GroupsLength() == materialGroupsCount
    }

    /** All groups of the segment. */
    ghost function Groups(): set<RenderGroup>
      reads this, components
    {
      set k, i | 0 <= k < |components| && 0 <= i < |components[k].materialGroups| :: components[k].materialGroups[i]
    }

    constructor (level: int)
      ensures this.level == level && Valid() && InSync() && materialGroupsCount == 0
      ensures forall k :: 0 <= k < |components| ==> fresh(components[k])
    {
      var cats := Categories(level == -1);
      var comps: seq<RenderComponent> := [];
      for k := 0 to |cats|
        invariant |comps| == k
        invariant forall j :: 0 <= j < k ==>
          && comps[j].componentType == cats[j] && comps[j].level == level && comps[j].Valid()
          && |comps[j].materialGroups| == (if cats[j] == Physics then 1 else 0)
          && fresh(comps[j])
      {
        var c := new RenderComponent(level, cats[k]);
        comps := comps + [c];
      }
      this.level := level;
      exportMode := level == -1;
      components := comps;
      materialGroupsCount := 0;
    }

    /**
     * Midway through resizing: the material components before index `done` hold
     * `to` groups, the others still `from`; everything else `Valid` says holds.
     */
    ghost predicate Resizing(done: int, from: nat, to: nat)
      reads this, components
    {
      && Shape()
      && (forall k :: 0 <= k < |components| ==> components[k].Valid())
      && |components[|components| - 1].materialGroups| == 1
      && (forall k :: 0 <= k < |components| - 1 ==>
            |components[k].materialGroups| == if k < done then to else from)
    }

    /** One step of `addGroup`: component k gains a group unless it is the physics component. */
    method GrowComponent(k: nat, ghost len: nat)
      requires k < |components| && Resizing(k, len, len + 1)
      modifies components[k]
      ensures Resizing(k + 1, len, len + 1)
    {
      if components[k].componentType != Physics {
        components[k].AddGroup();
      }
    }

    /** One step of `removeGroup`: component k loses its last group unless it is the physics component. */
    method ShrinkComponent(k: nat, ghost len: nat)
      requires k < |components| && Resizing(k, len, if len == 0 then 0 else len - 1)
      modifies components[k]
      ensures Resizing(k + 1, len, if len == 0 then 0 else len - 1)
    {
      if components[k].componentType != Physics {
        components[k].RemoveGroup();
      }
    }

    /** Adds a group to every material component and counts one more material. */
    method AddGroup()
      requires Valid()
      modifies this, components
      ensures Valid()
      ensures materialGroupsCount == old(materialGroupsCount) + 1
      ensures GroupsLength() == old(GroupsLength()) + 1
    {
      hide Categories;
      ghost var len := GroupsLength();
      for k := 0 to |components|
        invariant Resizing(k, len, len + 1)
        invariant materialGroupsCount == old(materialGroupsCount)
      {
        GrowComponent(k, len);
      }
      materialGroupsCount := materialGroupsCount + 1;
    }

    /** Removes the last group of every material component and counts one material fewer. */
    method RemoveGroup()
      requires Valid()
      modifies this, components
      ensures Valid()
      ensures materialGroupsCount == old(materialGroupsCount) - 1
      ensures GroupsLength() == if old(GroupsLength()) == 0 then 0 else old(GroupsLength()) - 1
    {
      hide Categories;
      ghost var len := GroupsLength();
      for k := 0 to |components|
        invariant Resizing(k, len, if len == 0 then 0 else len - 1)
        invariant materialGroupsCount == old(materialGroupsCount)
      {
        ShrinkComponent(k, len);
      }
      materialGroupsCount := materialGroupsCount - 1;
    }

    /**
     * `setGroups(count)`: removes groups while the count is above `count`, then
     * adds groups while it is below; the count ends at `count`.
     */
    method SetGroups(count: int)
      requires Valid()
      modifies this, components
      ensures Valid()
      ensures materialGroupsCount == count
      ensures GroupsLength() == SyncedLength(old(GroupsLength()), old(materialGroupsCount), count)
    {
      ghost var len0, count0 := GroupsLength(), materialGroupsCount;
      while materialGroupsCount > count
        invariant Valid()
        invariant count <= materialGroupsCount <= count0 || materialGroupsCount == count0
        invariant GroupsLength() == SyncedLength(len0, count0, materialGroupsCount)
        decreases materialGroupsCount - count
      {
        RemoveGroup();
      }
      ghost var len1, count1 := GroupsLength(), materialGroupsCount;
      while materialGroupsCount < count
        invariant Valid()
        invariant count1 <= materialGroupsCount && (count1 <= count ==> materialGroupsCount <= count)
        invariant GroupsLength() == len1 + (materialGroupsCount - count1)
        decreases count - materialGroupsCount
      {
        AddGroup();
      }
    }

    /** Renders every component, in component order. */
    method Render(b: Building)
      requires Valid() && WellFormed(b) && SegmentLevel(b, level)
      modifies Groups()
      ensures Valid()
      ensures forall k :: 0 <= k < |components| ==> ComponentRendered(components[k], b)
    {
      hide Rendered, WellFormed;
      for k := 0 to |components|
        invariant Valid()
        invariant forall k' :: 0 <= k' < k ==> ComponentRendered(components[k'], b)
      {
        forall k' | 0 <= k' < k
          ensures forall g :: g in components[k'].materialGroups ==> g !in components[k].materialGroups
        {
          assert components[k'].componentType != components[k].componentType;
        }
        components[k].Render(b);
        assert ComponentRendered(components[k], b);
      }
    }
  }
}
