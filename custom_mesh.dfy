/**
 * The custom 2D mesh pipeline (CustomMesh2dPlugin): extraction of visible
 * CustomMesh2d entities into the render world, their queueing into the
 * Transparent2d phase, and the colour uniform with its bind group and render
 * command.
 */
module CustomMesh {
  import opened Glam
  import opened Render

  // ---------------------------------------------------------------------------
  // extract_custom_mesh2d
  // ---------------------------------------------------------------------------

  /**
   * A main-world entity, as the extraction query sees it: whether it carries
   * CustomMesh2d, its computed visibility, and its CustomShader, if any.
   */
  datatype MainEntity = MainEntity(entity: Entity, customMesh2d: bool, visible: bool, shader: Option<Handle>)

  /** `(entity, (CustomMesh2d, CustomShader(shader)))` */
  datatype ExtractedMesh2d = ExtractedMesh2d(entity: Entity, shader: Handle)

  /** The query `(Entity, &ComputedVisibility, &CustomShader), With<CustomMesh2d>` */
  predicate InQuery(e: MainEntity) {
    e.customMesh2d && e.shader.Some?
  }

  predicate Extracts(e: MainEntity) {
    InQuery(e) && e.visible
  }

  /** The pushed values: the visible query matches, in iteration order. */
  function VisibleMatches(world: seq<MainEntity>): seq<ExtractedMesh2d> {
    if world == [] then []
    else
      var e := world[|world| - 1];
      VisibleMatches(world[..|world| - 1]) + (if Extracts(e) then [ExtractedMesh2d(e.entity, e.shader.value)] else [])
  }

  /** Extraction distributes over the order of the world: what comes first is extracted first. */
  lemma {:induction false} VisibleMatchesAppend(a: seq<MainEntity>, b: seq<MainEntity>)
    ensures VisibleMatches(a + b) == VisibleMatches(a) + VisibleMatches(b)
    decreases |b|
  {
    if b == [] {
      assert a + b == a;
    } else {
      var init := b[..|b| - 1];
      assert (a + b)[..|a + b| - 1] == a + init;
      VisibleMatchesAppend(a, init);
    }
  }

  /** Exactly the visible matching entities are extracted, each with its shader. */
  lemma {:induction false} VisibleMatchesExactly(world: seq<MainEntity>)
    ensures forall e :: e in world && Extracts(e) ==> ExtractedMesh2d(e.entity, e.shader.value) in VisibleMatches(world)
    ensures forall x :: x in VisibleMatches(world) ==>
      exists e :: e in world && Extracts(e) && x == ExtractedMesh2d(e.entity, e.shader.value)
    ensures |VisibleMatches(world)| <= |world|
  {
    if world != [] {
      var init := world[..|world| - 1];
      VisibleMatchesExactly(init);
      assert world == init + [world[|world| - 1]];
    }
  }

  /** An invisible entity contributes nothing, wherever it is. */
  lemma InvisibleIsDropped(a: seq<MainEntity>, e: MainEntity, b: seq<MainEntity>)
    requires !e.visible
    ensures VisibleMatches(a + [e] + b) == VisibleMatches(a + b)
  {
    VisibleMatchesAppend(a + [e], b);
    VisibleMatchesAppend(a, [e]);
    VisibleMatchesAppend(a, b);
    assert [e][..0] == [];
  }

  /** The system, with its `Local<usize>` length hint. */
  class ExtractCustomMesh2d {
    var previousLen: nat

    constructor ()
      ensures previousLen == 0
    {
      previousLen := 0;
    }

    /** One run: the spawn batch it hands to `insert_or_spawn_batch`, and the new hint. */
    method Run(world: seq<MainEntity>) returns (batch: seq<ExtractedMesh2d>)
      modifies this
      ensures batch == VisibleMatches(world)
      ensures previousLen == |batch|
    {
      var values: seq<ExtractedMesh2d> := [];
      for i := 0 to |world|
        invariant values == VisibleMatches(world[..i])
      {
        var e := world[i];
        assert world[..i + 1][..i] == world[..i];
        if !InQuery(e) {
          continue;
        }
        if !e.visible {
          continue;
        }
        values := values + [ExtractedMesh2d(e.entity, e.shader.value)];
      }
      assert world[..|world|] == world;
      previousLen := |values|;
      return values;
    }
  }

  // ---------------------------------------------------------------------------
  // queue_custom_mesh2d
  // ---------------------------------------------------------------------------

  type PipelineId = nat

  /** A render-world entity of the queue's query: its mesh handle, its Mesh2dUniform transform and its shader. */
  datatype Mesh2dItem = Mesh2dItem(meshHandle: Handle, transform: Mat4, shader: Handle)

  /** `CustomMesh2dPipelineKey` */
  datatype CustomMesh2dPipelineKey = CustomMesh2dPipelineKey(originalKey: bv32, shader: Handle)

  /** `Transparent2d`; the sort key is the FloatOrd of a z value. */
  datatype Transparent2d = Transparent2d(sortKey: real, entity: Entity, pipeline: PipelineId, drawFunction: nat, batchRange: Option<Range>)

  /** The engine's Mesh2dPipelineKey constructors and the pipeline cache. */
  datatype Mesh2dSpecializer = Mesh2dSpecializer(
    msaaKey: bv32,
    topologyKey: PrimitiveTopology -> bv32,
    specialize: CustomMesh2dPipelineKey -> PipelineId)

  /** The key of an entity: the MSAA key, with the topology bits or'd in when the mesh is loaded. */
  function Mesh2dKey(sp: Mesh2dSpecializer, meshHandle: Handle, meshes: map<Handle, GpuMesh>): bv32 {
    var meshKey := sp.msaaKey;
    if meshHandle in meshes then meshKey | sp.topologyKey(meshes[meshHandle].primitiveTopology) else meshKey
  }

  /** The key always keeps the MSAA bits; without a loaded mesh it is the MSAA key alone. */
  lemma Mesh2dKeyKeepsMsaa(sp: Mesh2dSpecializer, meshHandle: Handle, meshes: map<Handle, GpuMesh>)
    ensures Mesh2dKey(sp, meshHandle, meshes) & sp.msaaKey == sp.msaaKey
    ensures meshHandle !in meshes ==> Mesh2dKey(sp, meshHandle, meshes) == sp.msaaKey
    ensures meshHandle in meshes && sp.topologyKey(meshes[meshHandle].primitiveTopology) == 0 ==>
      Mesh2dKey(sp, meshHandle, meshes) == sp.msaaKey
  {
  }

  /** The phase item of one visible entity that matches the query. */
  function Queue2dItem(entity: Entity, item: Mesh2dItem, meshes: map<Handle, GpuMesh>, sp: Mesh2dSpecializer, drawFunction: nat): Transparent2d {
    var key := CustomMesh2dPipelineKey(Mesh2dKey(sp, item.meshHandle, meshes), item.shader);
    Transparent2d(item.transform.wAxis.z, entity, sp.specialize(key), drawFunction, None)
  }

  /** The items one view gets, in visible-entities order. */
  function Queued2dItems(visible: seq<Entity>, query: map<Entity, Mesh2dItem>, meshes: map<Handle, GpuMesh>,
                         sp: Mesh2dSpecializer, drawFunction: nat): seq<Transparent2d>
  {
    if visible == [] then []
    else
      var e := visible[|visible| - 1];
      Queued2dItems(visible[..|visible| - 1], query, meshes, sp, drawFunction)
        + (if e in query then [Queue2dItem(e, query[e], meshes, sp, drawFunction)] else [])
  }

  /** The visible entities that match the query, in order. */
  function VisibleInQuery(visible: seq<Entity>, query: map<Entity, Mesh2dItem>): seq<Entity> {
    if visible == [] then []
    else
      var e := visible[|visible| - 1];
      VisibleInQuery(visible[..|visible| - 1], query) + (if e in query then [e] else [])
  }

  /**
   * One item per visible entity that matches the query, in order; each is
   * keyed by the translation z of its transform and has no batch range.
   */
  lemma {:induction false} Queued2dOnePerMatch(visible: seq<Entity>, query: map<Entity, Mesh2dItem>, meshes: map<Handle, GpuMesh>,
                                               sp: Mesh2dSpecializer, drawFunction: nat)
    ensures var q, v := Queued2dItems(visible, query, meshes, sp, drawFunction), VisibleInQuery(visible, query);
      && |q| == |v|
      && forall k :: 0 <= k < |v| ==>
           && v[k] in query
           && q[k] == Queue2dItem(v[k], query[v[k]], meshes, sp, drawFunction)
           && q[k].entity == v[k] && q[k].sortKey == query[v[k]].transform.wAxis.z && q[k].batchRange.None?
  {
    if visible != [] {
      Queued2dOnePerMatch(visible[..|visible| - 1], query, meshes, sp, drawFunction);
    }
  }

  /** With no custom meshes in the render world, no view gets an item. */
  lemma {:induction false} NoCustomMeshesNoItems(visible: seq<Entity>, meshes: map<Handle, GpuMesh>, sp: Mesh2dSpecializer, drawFunction: nat)
    ensures Queued2dItems(visible, map[], meshes, sp, drawFunction) == []
  {
    if visible != [] {
      NoCustomMeshesNoItems(visible[..|visible| - 1], meshes, sp, drawFunction);
    }
  }

  /** The items of a prefix grow by the item of the next entity, if it matches the query. */
  lemma Queued2dStep(visible: seq<Entity>, i: nat, query: map<Entity, Mesh2dItem>, meshes: map<Handle, GpuMesh>,
                     sp: Mesh2dSpecializer, drawFunction: nat)
    requires i < |visible|
    ensures Queued2dItems(visible[..i + 1], query, meshes, sp, drawFunction)
      == Queued2dItems(visible[..i], query, meshes, sp, drawFunction)
         + (if visible[i] in query then [Queue2dItem(visible[i], query[visible[i]], meshes, sp, drawFunction)] else [])
  {
    assert visible[..i + 1][..i] == visible[..i];
  }

  /** The key computation of the queue loop: the view's MSAA key, or'd with the topology of a loaded mesh. */
  method EntityKey(sp: Mesh2dSpecializer, meshHandle: Handle, meshes: map<Handle, GpuMesh>) returns (mesh2dKey: bv32)
    ensures mesh2dKey == Mesh2dKey(sp, meshHandle, meshes)
  {
    mesh2dKey := sp.msaaKey;
    if meshHandle in meshes {
      mesh2dKey := mesh2dKey | sp.topologyKey(meshes[meshHandle].primitiveTopology);
    }
  }

  /** The body of `queue_custom_mesh2d` for one view: its visible entities into its phase. */
  method QueueView(visibleEntities: seq<Entity>, transparentPhase: RenderPhase<Transparent2d>, query: map<Entity, Mesh2dItem>,
                   meshes: map<Handle, GpuMesh>, sp: Mesh2dSpecializer, drawCustomMesh2d: nat)
    modifies transparentPhase
    ensures transparentPhase.items == old(transparentPhase.items) + Queued2dItems(visibleEntities, query, meshes, sp, drawCustomMesh2d)
  {
    for i := 0 to |visibleEntities|
      invariant transparentPhase.items == old(transparentPhase.items) + Queued2dItems(visibleEntities[..i], query, meshes, sp, drawCustomMesh2d)
    {
      var visibleEntity := visibleEntities[i];
      Queued2dStep(visibleEntities, i, query, meshes, sp, drawCustomMesh2d);
      if visibleEntity in query {
        var item := query[visibleEntity];
        var mesh2dKey := EntityKey(sp, item.meshHandle, meshes);
        var pipelineId := sp.specialize(CustomMesh2dPipelineKey(mesh2dKey, item.shader));
        var meshZ := item.transform.wAxis.z;
        ghost var queued := Transparent2d(meshZ, visibleEntity, pipelineId, drawCustomMesh2d, None);
        assert queued == Queue2dItem(visibleEntity, item, meshes, sp, drawCustomMesh2d);
        transparentPhase.Add(Transparent2d(meshZ, visibleEntity, pipelineId, drawCustomMesh2d, None));
      }
    }
    assert visibleEntities[..|visibleEntities|] == visibleEntities;
  }

  /**
   * `queue_custom_mesh2d`: returns at once when the query is empty;
   * otherwise each view's phase gets the items of its visible entities.
   */
  method QueueCustomMesh2d(views: seq<seq<Entity>>, phases: seq<RenderPhase<Transparent2d>>, query: map<Entity, Mesh2dItem>,
                           meshes: map<Handle, GpuMesh>, sp: Mesh2dSpecializer, drawCustomMesh2d: nat)
    requires |views| == |phases| && DistinctPhases(phases)
    modifies set p | p in phases
    ensures query == map[] ==> forall j :: 0 <= j < |phases| ==> phases[j].items == old(phases[j].items)
    ensures forall j :: 0 <= j < |phases| ==>
      phases[j].items == old(phases[j].items) + Queued2dItems(views[j], query, meshes, sp, drawCustomMesh2d)
  {
    if query == map[] {
      forall j | 0 <= j < |phases|
        ensures Queued2dItems(views[j], query, meshes, sp, drawCustomMesh2d) == []
      {
        NoCustomMeshesNoItems(views[j], meshes, sp, drawCustomMesh2d);
      }
      return;
    }
    for j := 0 to |views|
      invariant forall k :: 0 <= k < j ==>
        phases[k].items == old(phases[k].items) + Queued2dItems(views[k], query, meshes, sp, drawCustomMesh2d)
      invariant forall k :: j <= k < |phases| ==> phases[k].items == old(phases[k].items)
    {
      QueueView(views[j], phases[j], query, meshes, sp, drawCustomMesh2d);
    }
  }

  // ---------------------------------------------------------------------------
  // The colour uniform.
  // ---------------------------------------------------------------------------

  /** The size of the colour uniform buffer made by the plugin, in bytes. */
  const CUSTOM_COLOR_BUFFER_SIZE: nat := 16

  const NOT_EXACTLY_ONE_COLOR: string := "custom_color_query.get_single().unwrap() on Err"
  const NO_COLOR_BIND_GROUP: string := "bind_group.as_ref().unwrap() on None"

  /** The bind group over the colour buffer: one entry, binding 0, the entire buffer. */
  function ColorBindGroup(layout: seq<BindGroupLayoutEntry>, contents: seq<real>): BindGroup {
    BindGroup(layout, [BindGroupEntry(0, EntireBuffer(contents))])
  }

  /** It agrees with any one-entry layout asking for a uniform buffer of at most 16 bytes at binding 0. */
  lemma ColorBindGroupConforms(layout: seq<BindGroupLayoutEntry>, contents: seq<real>)
    requires |contents| == 4
    ensures Conforms(ColorBindGroup(layout, contents)) <==>
      |layout| == 1 && layout[0].binding == 0 && layout[0].ty.UniformBuffer? && layout[0].ty.minBindingSize <= CUSTOM_COLOR_BUFFER_SIZE
  {
    var g := ColorBindGroup(layout, contents);
    assert ByteSize(contents) == CUSTOM_COLOR_BUFFER_SIZE;
    if Conforms(g) {
      assert ResourceFits(g.entries[0].resource, g.layout[0].ty);
    }
  }

  /** The `CustomColorMeta` resource: the 16-byte buffer (four f32 words) and the optional bind group. */
  class CustomColorMeta {
    const buffer: array<real>
    var bindGroup: Option<BindGroup>

    /** As inserted by the plugin: a fresh 16-byte buffer and no bind group. */
    constructor ()
      ensures buffer.Length == CUSTOM_COLOR_BUFFER_SIZE / F32_SIZE && fresh(buffer)
      ensures bindGroup == None
    {
      buffer := new real[4](_ => 0.0);
      bindGroup := None;
    }

    /** `render_queue.write_buffer(buffer, offset, data)`, offset and data in words. */
    method WriteBuffer(offset: nat, data: seq<real>)
      requires offset + |data| <= buffer.Length
      modifies buffer
      ensures buffer[..] == old(buffer[..offset]) + data + old(buffer[offset + |data|..])
    {
      for k := 0 to |data|
        invariant buffer[..] == old(buffer[..offset]) + data[..k] + old(buffer[offset + k..])
      {
        buffer[offset + k] := data[k];
        assert data[..k + 1] == data[..k] + [data[k]];
      }
    }

    /** `prepare_custom_color`: exactly one extracted colour is written at offset 0, or the system panics. */
    method PrepareCustomColor(colors: seq<Vec4>) returns (o: Outcome<()>)
      requires buffer.Length == 4
      modifies buffer
      ensures o.Returned? <==> |colors| == 1
      ensures o.Panicked? ==> o.reason == NOT_EXACTLY_ONE_COLOR && buffer[..] == old(buffer[..])
      ensures o.Returned? ==> buffer[..] == Vec4Words(colors[0])
    {
      if |colors| != 1 {
        return Panicked(NOT_EXACTLY_ONE_COLOR);
      }
      var customColor := colors[0];
      WriteBuffer(0, Vec4Words(customColor));
      assert old(buffer[..0]) == [] && old(buffer[4..]) == [];
      return Returned(());
    }

    /** `queue_custom_color_bind_group`: afterwards the bind group is present and covers the buffer. */
    method QueueCustomColorBindGroup(layout: seq<BindGroupLayoutEntry>)
      modifies this
      ensures bindGroup == Some(ColorBindGroup(layout, buffer[..]))
    {
      bindGroup := Some(ColorBindGroup(layout, buffer[..]));
    }

    /** `SetCustomColorBindGroup::<I>::render`: unwraps the bind group, binds it at group I, and succeeds. */
    method SetCustomColorBindGroup(pass: TrackedRenderPass, index: nat) returns (o: Outcome<RenderCommandResult>)
      modifies pass
      ensures bindGroup.None? ==> o == Panicked(NO_COLOR_BIND_GROUP) && pass.commands == old(pass.commands)
      ensures bindGroup.Some? ==> o == Returned(Success) && pass.commands == old(pass.commands) + [BindGroupAt(index, bindGroup.value, [])]
    {
      if bindGroup.None? {
        return Panicked(NO_COLOR_BIND_GROUP);
      }
      pass.SetBindGroup(index, bindGroup.value, []);
      return Returned(Success);
    }

    /**
     * One frame of the colour uniform, stage after stage (prepare, queue,
     * render): with exactly one colour the draw binds a group over this
     * colour's words and succeeds. The bind group is created before it is used.
     */
    method Frame(colors: seq<Vec4>, layout: seq<BindGroupLayoutEntry>, pass: TrackedRenderPass) returns (o: Outcome<RenderCommandResult>)
      requires buffer.Length == 4
      modifies this, buffer, pass
      ensures |colors| == 1 <==> o.Returned?
      ensures |colors| == 1 ==>
        && o == Returned(Success)
        && pass.commands == old(pass.commands) + [BindGroupAt(2, ColorBindGroup(layout, Vec4Words(colors[0])), [])]
    {
      var prepared := PrepareCustomColor(colors);
      if prepared.Panicked? {
        return Panicked(prepared.reason);
      }
      QueueCustomColorBindGroup(layout);
      o := SetCustomColorBindGroup(pass, 2);
    }
  }
}
