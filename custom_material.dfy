/**
 * The instanced custom material (CustomMaterialPlugin): per-entity instance
 * buffers of model matrices, the seven-entry uniforms bind group, the
 * instance vertex layout, the queue into the Transparent3d phase, and the
 * two render commands of DrawCustom that this file defines.
 */
module CustomMaterial {
  import opened Glam
  import opened Render

  // ---------------------------------------------------------------------------
  // Instance data and the instance buffer.
  // ---------------------------------------------------------------------------

  /** `InstanceData`: one model matrix per instance, #[repr(C)]. */
  datatype InstanceData = InstanceData(model: Mat4)

  /** std::mem::size_of::<InstanceData>() */
  const INSTANCE_DATA_SIZE: nat := MAT4_SIZE

  /** The words of an instance buffer: each instance's model matrix, column after column. */
  function InstanceWords(data: seq<InstanceData>): (w: seq<real>)
    ensures |w| == 16 * |data|
    ensures forall i :: 0 <= i < |data| ==> w[16 * i .. 16 * i + 16] == Mat4Words(data[i].model)
  {
    var models := seq(|data|, i requires 0 <= i < |data| => data[i].model);
    assert forall i :: 0 <= i < |data| ==> models[i] == data[i].model;
    MatricesWords(models)
  }

  /** `InstanceBuffer`: the buffer's words and the number of instances in it. */
  datatype InstanceBuffer = InstanceBuffer(buffer: seq<real>, length: nat)

  /** `UniformMeta` */
  datatype UniformMeta = UniformMeta(bindGroup: BindGroup)

  /** The components that the prepare systems insert. */
  datatype Component = InstanceBufferComponent(instanceBuffer: InstanceBuffer) | UniformMetaComponent(uniformMeta: UniformMeta)

  /** A GpuImage, as far as the bind group uses it. */
  datatype GpuImage = GpuImage(textureView: nat, sampler: nat)

  // ---------------------------------------------------------------------------
  // The uniforms bind group and its layout.
  // ---------------------------------------------------------------------------

  /** The "Uniforms" bind group layout of CustomMaterialPipeline. */
  const UNIFORMS_LAYOUT: seq<BindGroupLayoutEntry> := [
    BindGroupLayoutEntry(0, VertexStage, UniformBuffer(MAT4_SIZE)),
    BindGroupLayoutEntry(1, VertexStage, UniformBuffer(MAT4_SIZE)),
    BindGroupLayoutEntry(2, FragmentStage, FilterableTexture2d),
    BindGroupLayoutEntry(3, FragmentStage, FilteringSampler),
    BindGroupLayoutEntry(4, FragmentStage, FilterableTexture2d),
    BindGroupLayoutEntry(5, FragmentStage, FilteringSampler),
    BindGroupLayoutEntry(6, FragmentStage, UniformBuffer(F32_SIZE))
  ]

  /**
   * The "uniform bind group" of prepare_buffers: view and projection
   * matrices, the base and mix textures with their samplers, and the offset.
   * It agrees with the layout it names, entry by entry.
   */
  function UniformsBindGroup(view: Mat4, proj: Mat4, offset: real, base: GpuImage, mix: GpuImage): (g: BindGroup)
    ensures g.layout == UNIFORMS_LAYOUT && DistinctBindings(g.layout)
    ensures Conforms(g)
    ensures g.entries[0].resource == EntireBuffer(Mat4Words(view))
    ensures g.entries[1].resource == EntireBuffer(Mat4Words(proj))
    ensures g.entries[2].resource == TextureView(base.textureView) && g.entries[3].resource == Sampler(base.sampler)
    ensures g.entries[4].resource == TextureView(mix.textureView) && g.entries[5].resource == Sampler(mix.sampler)
    ensures g.entries[6].resource == EntireBuffer([offset])
  {
    BindGroup(UNIFORMS_LAYOUT, [
      BindGroupEntry(0, EntireBuffer(Mat4Words(view))),
      BindGroupEntry(1, EntireBuffer(Mat4Words(proj))),
      BindGroupEntry(2, TextureView(base.textureView)),
      BindGroupEntry(3, Sampler(base.sampler)),
      BindGroupEntry(4, TextureView(mix.textureView)),
      BindGroupEntry(5, Sampler(mix.sampler)),
      BindGroupEntry(6, EntireBuffer([offset]))
    ])
  }

  // ---------------------------------------------------------------------------
  // prepare_buffers
  // ---------------------------------------------------------------------------

  /** One result of the prepare query: an entity and its extracted components. */
  datatype PrepareRow = PrepareRow(
    entity: Entity,
    instanceData: seq<InstanceData>,
    offset: real,
    baseTexture: Handle,
    mixTexture: Handle,
    view: Mat4,
    proj: Mat4)

  /** The insertions queued so far, and the panic that ended the system, if any. */
  datatype PrepareRun = PrepareRun(queued: seq<Insertion<Component>>, panic: Option<string>)

  const BASE_TEXTURE_MISSING: string := "images.get(base_tex).unwrap() on None"
  const MIX_TEXTURE_MISSING: string := "images.get(mix_tex).unwrap() on None"

  function InstanceBufferFor(data: seq<InstanceData>): (b: InstanceBuffer)
    ensures b.length == |data| && |b.buffer| == 16 * b.length
  {
    InstanceBuffer(InstanceWords(data), |data|)
  }

  /**
   * One iteration of prepare_buffers: the instance buffer is inserted first;
   * then both textures must be loaded, or the system panics; then the
   * uniforms bind group over the row's view, projection and offset and the
   * two loaded images is inserted.
   */
  function PrepareEntity(row: PrepareRow, images: map<Handle, GpuImage>): (p: PrepareRun)
    ensures p.queued != [] && p.queued[0] == Insertion(row.entity, InstanceBufferComponent(InstanceBufferFor(row.instanceData)))
    ensures p.panic.None? <==> row.baseTexture in images && row.mixTexture in images
    ensures p.panic.None? ==> p.queued == [p.queued[0], Insertion(row.entity, UniformMetaComponent(UniformMeta(
      UniformsBindGroup(row.view, row.proj, row.offset, images[row.baseTexture], images[row.mixTexture]))))]
    ensures p.panic.None? ==> var g := p.queued[1].component.uniformMeta.bindGroup;
      g.layout == UNIFORMS_LAYOUT && Conforms(g)
    ensures p.panic.Some? ==> |p.queued| == 1
  {
    var instances := Insertion(row.entity, InstanceBufferComponent(InstanceBufferFor(row.instanceData)));
    if row.baseTexture !in images then PrepareRun([instances], Some(BASE_TEXTURE_MISSING))
    else if row.mixTexture !in images then PrepareRun([instances], Some(MIX_TEXTURE_MISSING))
    else
      var group := UniformsBindGroup(row.view, row.proj, row.offset, images[row.baseTexture], images[row.mixTexture]);
      PrepareRun([instances, Insertion(row.entity, UniformMetaComponent(UniformMeta(group)))], None)
  }

  /** prepare_buffers over the query results in iteration order; a panic ends the system. */
  function PrepareBuffersRun(rows: seq<PrepareRow>, images: map<Handle, GpuImage>): PrepareRun {
    if rows == [] then PrepareRun([], None)
    else
      var before := PrepareBuffersRun(rows[..|rows| - 1], images);
      if before.panic.Some? then before
      else
        var step := PrepareEntity(rows[|rows| - 1], images);
        PrepareRun(before.queued + step.queued, step.panic)
  }

  /** Once the system has panicked, later rows change nothing. */
  lemma {:induction false} PanicIsFinal(rows: seq<PrepareRow>, images: map<Handle, GpuImage>, k: nat)
    requires k <= |rows|
    requires PrepareBuffersRun(rows[..k], images).panic.Some?
    ensures PrepareBuffersRun(rows, images) == PrepareBuffersRun(rows[..k], images)
    decreases |rows| - k
  {
    if k < |rows| {
      assert rows[..|rows| - 1][..k] == rows[..k];
      PanicIsFinal(rows[..|rows| - 1], images, k);
    } else {
      assert rows[..k] == rows;
    }
  }

  /** The system finishes exactly when every row's textures are loaded. */
  lemma {:induction false} PrepareBuffersFinishes(rows: seq<PrepareRow>, images: map<Handle, GpuImage>)
    ensures PrepareBuffersRun(rows, images).panic.None? <==>
      forall i :: 0 <= i < |rows| ==> rows[i].baseTexture in images && rows[i].mixTexture in images
  {
    if rows != [] {
      var init := rows[..|rows| - 1];
      PrepareBuffersFinishes(init, images);
      if PrepareBuffersRun(init, images).panic.Some? {
        var i :| 0 <= i < |init| && !(init[i].baseTexture in images && init[i].mixTexture in images);
        assert rows[i] == init[i];
      } else {
        forall i | 0 <= i < |init|
          ensures rows[i].baseTexture in images && rows[i].mixTexture in images
        {
          assert rows[i] == init[i];
        }
      }
    }
  }

  /**
   * Row i's insertions, at 2i and 2i + 1: its instance buffer, then the
   * uniforms bind group over its view, projection, offset and loaded images.
   */
  predicate RowQueued(queued: seq<Insertion<Component>>, row: PrepareRow, images: map<Handle, GpuImage>, i: nat)
    requires 2 * i + 1 < |queued|
  {
    && queued[2 * i] == Insertion(row.entity, InstanceBufferComponent(InstanceBufferFor(row.instanceData)))
    && row.baseTexture in images && row.mixTexture in images
    && queued[2 * i + 1] == Insertion(row.entity, UniformMetaComponent(UniformMeta(
         UniformsBindGroup(row.view, row.proj, row.offset, images[row.baseTexture], images[row.mixTexture]))))
  }

  /**
   * A run that finishes queues two insertions per row, in row order: the
   * instance buffer holding exactly the row's instances, then its bind group.
   */
  lemma {:induction false} PrepareBuffersInserts(rows: seq<PrepareRow>, images: map<Handle, GpuImage>)
    requires PrepareBuffersRun(rows, images).panic.None?
    ensures |PrepareBuffersRun(rows, images).queued| == 2 * |rows|
    ensures forall i :: 0 <= i < |rows| ==> RowQueued(PrepareBuffersRun(rows, images).queued, rows[i], images, i)
  {
    if rows != [] {
      var init, last := rows[..|rows| - 1], rows[|rows| - 1];
      var before := PrepareBuffersRun(init, images);
      PrepareBuffersInserts(init, images);
      var step := PrepareEntity(last, images);
      var queued := before.queued + step.queued;
      assert PrepareBuffersRun(rows, images).queued == queued;
      forall i | 0 <= i < |rows|
        ensures RowQueued(queued, rows[i], images, i)
      {
        if i < |init| {
          assert rows[i] == init[i];
          assert RowQueued(before.queued, init[i], images, i);
          assert queued[2 * i] == before.queued[2 * i];
          assert queued[2 * i + 1] == before.queued[2 * i + 1];
        } else {
          assert queued[2 * i] == step.queued[0];
          assert queued[2 * i + 1] == step.queued[1];
        }
      }
    }
  }

  /**
   * Row i continues a run that has not panicked yet; if row i panics, that is
   * the end of the whole run.
   */
  lemma PrepareStep(rows: seq<PrepareRow>, images: map<Handle, GpuImage>, i: nat)
    requires i < |rows|
    requires PrepareBuffersRun(rows[..i], images).panic.None?
    ensures PrepareBuffersRun(rows[..i + 1], images)
         == PrepareRun(PrepareBuffersRun(rows[..i], images).queued + PrepareEntity(rows[i], images).queued, PrepareEntity(rows[i], images).panic)
    ensures PrepareEntity(rows[i], images).panic.Some? ==> PrepareBuffersRun(rows, images) == PrepareBuffersRun(rows[..i + 1], images)
  {
    assert rows[..i + 1][..i] == rows[..i];
    if PrepareEntity(rows[i], images).panic.Some? {
      PanicIsFinal(rows, images, i + 1);
    }
  }

  /** The body of the `prepare_buffers` loop for one entity: queues what PrepareEntity queues, and panics where it does. */
  method PrepareOne(commands: Commands<Component>, row: PrepareRow, images: map<Handle, GpuImage>) returns (o: Outcome<()>)
    modifies commands
    ensures commands.queued == old(commands.queued) + PrepareEntity(row, images).queued
    ensures o.Panicked? <==> PrepareEntity(row, images).panic.Some?
    ensures o.Panicked? ==> Some(o.reason) == PrepareEntity(row, images).panic
  {
    commands.Insert(row.entity, InstanceBufferComponent(InstanceBufferFor(row.instanceData)));
    if row.baseTexture !in images {
      return Panicked(BASE_TEXTURE_MISSING);
    }
    var baseImage := images[row.baseTexture];
    if row.mixTexture !in images {
      return Panicked(MIX_TEXTURE_MISSING);
    }
    var mixImage := images[row.mixTexture];
    var bindGroup := UniformsBindGroup(row.view, row.proj, row.offset, baseImage, mixImage);
    commands.Insert(row.entity, UniformMetaComponent(UniformMeta(bindGroup)));
    return Returned(());
  }

  /** `prepare_buffers`: queues the insertions of PrepareBuffersRun, or panics where it does. */
  method PrepareBuffers(commands: Commands<Component>, rows: seq<PrepareRow>, images: map<Handle, GpuImage>)
    returns (o: Outcome<()>)
    modifies commands
    ensures commands.queued == old(commands.queued) + PrepareBuffersRun(rows, images).queued
    ensures o.Panicked? <==> PrepareBuffersRun(rows, images).panic.Some?
    ensures o.Panicked? ==> Some(o.reason) == PrepareBuffersRun(rows, images).panic
  {
    for i := 0 to |rows|
      invariant PrepareBuffersRun(rows[..i], images).panic.None?
      invariant commands.queued == old(commands.queued) + PrepareBuffersRun(rows[..i], images).queued
    {
      PrepareStep(rows, images, i);
      var step := PrepareOne(commands, rows[i], images);
      if step.Panicked? {
        return step;
      }
    }
    assert rows[..|rows|] == rows;
    return Returned(());
  }

  // ---------------------------------------------------------------------------
  // specialize: the instance vertex buffer layout.
  // ---------------------------------------------------------------------------

  /**
   * The instance-step buffer layout pushed by specialize: four Float32x4
   * attributes at shader locations 3 to 6 that tile the 64-byte stride.
   */
  function CustomInstanceLayout(): (l: VertexBufferLayout)
    ensures Packed(l) && LocationsFrom(l, 3)
    ensures l.arrayStride == INSTANCE_DATA_SIZE && l.stepMode == PerInstance && |l.attributes| == 4
    ensures forall k :: 0 <= k < 4 ==> l.attributes[k] == VertexAttribute(Float32x4, 16 * k, 3 + k)
  {
    InstanceLayoutPacked(3, 4, INSTANCE_DATA_SIZE);
    InstanceLayout(3, 4, INSTANCE_DATA_SIZE)
  }

  /** Shader location 3 + k of instance i reads column k of that instance's model matrix. */
  lemma InstanceAttributesReadModelColumns(data: seq<InstanceData>, i: nat, k: nat)
    requires i < |data| && k < 4
    ensures var l := CustomInstanceLayout();
      AttributeWords(InstanceWords(data), l, i, k) == Vec4Words(Column(data[i].model, k))
  {
    var models := seq(|data|, j requires 0 <= j < |data| => data[j].model);
    assert InstanceWords(data) == MatricesWords(models);
    MatrixColumnWords(models, i, k);
  }

  // ---------------------------------------------------------------------------
  // The render commands.
  // ---------------------------------------------------------------------------

  /** What a render command returned and the commands it recorded into the pass. */
  datatype Rendered = Rendered(result: RenderCommandResult, commands: seq<PassCommand>)

  const MESH_HANDLE_MISSING: string := "mesh_query.get(item).unwrap() on Err"

  /** The draw call for a mesh, over instances 0..length (as u32). */
  function DrawFor(mesh: GpuMesh, length: nat): seq<PassCommand> {
    match mesh.bufferInfo
    case Indexed(buffer, indexFormat, count) =>
      [IndexBufferAt(buffer, 0, indexFormat), DrawIndexedCall(Range(0, count), 0, Range(0, AsU32(length)))]
    case NonIndexed(vertexCount) =>
      [DrawCall(Range(0, vertexCount), Range(0, AsU32(length)))]
  }

  /**
   * `DrawMeshInstanced::render`: panics when the item has no mesh handle;
   * records nothing and succeeds without an instance buffer; fails without
   * recording when the mesh is not prepared; otherwise binds the mesh at
   * vertex slot 0, the instances at slot 1, and draws them.
   */
  function DrawMeshInstanced(item: Entity, meshHandles: map<Entity, Handle>, instanceBuffers: map<Entity, InstanceBuffer>,
                             meshes: map<Handle, GpuMesh>): (r: Outcome<Rendered>)
    ensures r.Panicked? <==> item !in meshHandles
    ensures r.Returned? ==>
      (r.value.result == Failure <==> item in instanceBuffers && meshHandles[item] !in meshes)
    ensures r.Returned? ==>
      (r.value.commands == [] <==> item !in instanceBuffers || meshHandles[item] !in meshes)
    ensures r.Returned? && r.value.commands != [] ==>
      var mesh, instances := meshes[meshHandles[item]], instanceBuffers[item];
      && r.value.result == Success
      && |r.value.commands| >= 3
      && r.value.commands[0] == VertexBufferAt(0, mesh.vertexBuffer)
      && r.value.commands[1] == VertexBufferAt(1, Words(instances.buffer))
      && IsDraw(r.value.commands[|r.value.commands| - 1])
      && r.value.commands[|r.value.commands| - 1].instances == Range(0, AsU32(instances.length))
      && forall k :: 0 <= k < |r.value.commands| - 1 ==> !IsDraw(r.value.commands[k])
  {
    if item !in meshHandles then Panicked(MESH_HANDLE_MISSING)
    else if item !in instanceBuffers then Returned(Rendered(Success, []))
    else if meshHandles[item] !in meshes then Returned(Rendered(Failure, []))
    else
      var mesh, instances := meshes[meshHandles[item]], instanceBuffers[item];
      Returned(Rendered(Success,
        [VertexBufferAt(0, mesh.vertexBuffer), VertexBufferAt(1, Words(instances.buffer))] + DrawFor(mesh, instances.length)))
  }

  /** For an indexed mesh: index buffer at offset 0, then draw_indexed(0..count, 0, 0..length). */
  lemma DrawIndexedMesh(item: Entity, meshHandles: map<Entity, Handle>, instanceBuffers: map<Entity, InstanceBuffer>,
                        meshes: map<Handle, GpuMesh>)
    requires item in meshHandles && item in instanceBuffers && meshHandles[item] in meshes
    requires meshes[meshHandles[item]].bufferInfo.Indexed?
    ensures var mesh, instances := meshes[meshHandles[item]], instanceBuffers[item];
      var info := mesh.bufferInfo;
      DrawMeshInstanced(item, meshHandles, instanceBuffers, meshes) == Returned(Rendered(Success, [
        VertexBufferAt(0, mesh.vertexBuffer), VertexBufferAt(1, Words(instances.buffer)),
        IndexBufferAt(info.buffer, 0, info.indexFormat),
        DrawIndexedCall(Range(0, info.count), 0, Range(0, AsU32(instances.length)))]))
  {
    var mesh, instances := meshes[meshHandles[item]], instanceBuffers[item];
    var bind := [VertexBufferAt(0, mesh.vertexBuffer), VertexBufferAt(1, Words(instances.buffer))];
    var draw := DrawFor(mesh, instances.length);
    assert bind + draw == [bind[0], bind[1], draw[0], draw[1]];
  }

  /** For a non-indexed mesh: draw(0..vertex_count, 0..length) right after the two vertex buffers. */
  lemma DrawNonIndexedMesh(item: Entity, meshHandles: map<Entity, Handle>, instanceBuffers: map<Entity, InstanceBuffer>,
                           meshes: map<Handle, GpuMesh>)
    requires item in meshHandles && item in instanceBuffers && meshHandles[item] in meshes
    requires meshes[meshHandles[item]].bufferInfo.NonIndexed?
    ensures var mesh, instances := meshes[meshHandles[item]], instanceBuffers[item];
      DrawMeshInstanced(item, meshHandles, instanceBuffers, meshes) == Returned(Rendered(Success, [
        VertexBufferAt(0, mesh.vertexBuffer), VertexBufferAt(1, Words(instances.buffer)),
        DrawCall(Range(0, mesh.bufferInfo.vertexCount), Range(0, AsU32(instances.length)))]))
  {
    var mesh, instances := meshes[meshHandles[item]], instanceBuffers[item];
    var bind := [VertexBufferAt(0, mesh.vertexBuffer), VertexBufferAt(1, Words(instances.buffer))];
    var draw := DrawFor(mesh, instances.length);
    assert bind + draw == [bind[0], bind[1], draw[0]];
  }

  /** The instance buffer prepared for a row is drawn over exactly that row's instances. */
  lemma PreparedInstancesAreDrawn(row: PrepareRow, item: Entity, meshHandles: map<Entity, Handle>,
                                  instanceBuffers: map<Entity, InstanceBuffer>, meshes: map<Handle, GpuMesh>)
    requires item in meshHandles && meshHandles[item] in meshes
    requires item in instanceBuffers && instanceBuffers[item] == InstanceBufferFor(row.instanceData)
    requires |row.instanceData| < U32_MODULUS
    ensures var r := DrawMeshInstanced(item, meshHandles, instanceBuffers, meshes);
      && r.Returned? && r.value.result == Success
      && r.value.commands[1] == VertexBufferAt(1, Words(InstanceWords(row.instanceData)))
      && r.value.commands[|r.value.commands| - 1].instances == Range(0, |row.instanceData|)
  {
  }

  /** `DrawMeshInstanced::render` on a tracked pass. */
  method RenderDrawMeshInstanced(pass: TrackedRenderPass, item: Entity, meshHandles: map<Entity, Handle>,
                                 instanceBuffers: map<Entity, InstanceBuffer>, meshes: map<Handle, GpuMesh>)
    returns (o: Outcome<RenderCommandResult>)
    modifies pass
    ensures match DrawMeshInstanced(item, meshHandles, instanceBuffers, meshes)
      case Panicked(reason) => o == Panicked(reason) && pass.commands == old(pass.commands)
      case Returned(rendered) => o == Returned(rendered.result) && pass.commands == old(pass.commands) + rendered.commands
  {
    if item !in meshHandles {
      return Panicked(MESH_HANDLE_MISSING);
    }
    var meshHandle := meshHandles[item];
    if item in instanceBuffers {
      var instanceBuffer := instanceBuffers[item];
      if meshHandle !in meshes {
        return Returned(Failure);
      }
      var gpuMesh := meshes[meshHandle];
      pass.SetVertexBuffer(0, gpuMesh.vertexBuffer);
      pass.SetVertexBuffer(1, Words(instanceBuffer.buffer));
      match gpuMesh.bufferInfo {
        case Indexed(buffer, indexFormat, count) =>
          pass.SetIndexBuffer(buffer, 0, indexFormat);
          pass.DrawIndexed(Range(0, count), 0, Range(0, AsU32(instanceBuffer.length)));
        case NonIndexed(vertexCount) =>
          pass.Draw(Range(0, vertexCount), Range(0, AsU32(instanceBuffer.length)));
      }
    }
    return Returned(Success);
  }

  /** `SetUniformsBindGroup::<I>::render`: binds the item's uniforms at group I when it has them; always succeeds. */
  function SetUniformsBindGroup(index: nat, item: Entity, uniformMetas: map<Entity, UniformMeta>): (r: Rendered)
    ensures r.result == Success
    ensures item in uniformMetas ==> r.commands == [BindGroupAt(index, uniformMetas[item].bindGroup, [])]
    ensures item !in uniformMetas ==> r.commands == []
  {
    if item in uniformMetas then Rendered(Success, [BindGroupAt(index, uniformMetas[item].bindGroup, [])])
    else Rendered(Success, [])
  }

  method RenderSetUniformsBindGroup(pass: TrackedRenderPass, index: nat, item: Entity, uniformMetas: map<Entity, UniformMeta>)
    returns (result: RenderCommandResult)
    modifies pass
    ensures result == SetUniformsBindGroup(index, item, uniformMetas).result
    ensures pass.commands == old(pass.commands) + SetUniformsBindGroup(index, item, uniformMetas).commands
  {
    if item in uniformMetas {
      pass.SetBindGroup(index, uniformMetas[item].bindGroup, []);
    }
    return Success;
  }

  // ---------------------------------------------------------------------------
  // queue_custom_material
  // ---------------------------------------------------------------------------

  /** A cached render pipeline id. */
  type PipelineId = nat

  /** `Transparent3d` */
  datatype Transparent3d = Transparent3d(entity: Entity, pipeline: PipelineId, drawFunction: nat, distance: real)

  /** An entity of the material-mesh query: its mesh uniform transform and mesh handle. */
  datatype MaterialMesh = MaterialMesh(entity: Entity, transform: Mat4, meshHandle: Handle)

  /** A view, as far as the queue uses it: its rangefinder's distance to a transform. */
  datatype ExtractedView = ExtractedView(distance: Mat4 -> real)

  /**
   * The engine's pipeline keys and cache: the MSAA key, the bits of a
   * primitive topology, and the cached pipeline that specializing for a key
   * and a mesh layout yields.
   */
  datatype MeshSpecializer = MeshSpecializer(msaaKey: bv32, topologyKey: PrimitiveTopology -> bv32, specialize: (bv32, nat) -> PipelineId)

  /** The pipeline key of a loaded mesh: the MSAA key or'd with the bits of its topology. */
  function MeshKey(sp: MeshSpecializer, mesh: GpuMesh): bv32 {
    sp.msaaKey | sp.topologyKey(mesh.primitiveTopology)
  }

  /** The phase item of one entity whose mesh is loaded. */
  function QueueItem(view: ExtractedView, mesh: GpuMesh, e: MaterialMesh, sp: MeshSpecializer, drawFunction: nat): Transparent3d {
    Transparent3d(e.entity, sp.specialize(MeshKey(sp, mesh), mesh.layout), drawFunction, view.distance(e.transform))
  }

  /** The items the queue adds to one view's phase, entity by entity. */
  function QueuedItems(view: ExtractedView, es: seq<MaterialMesh>, meshes: map<Handle, GpuMesh>, sp: MeshSpecializer,
                       drawFunction: nat): seq<Transparent3d>
  {
    if es == [] then []
    else
      var e := es[|es| - 1];
      QueuedItems(view, es[..|es| - 1], meshes, sp, drawFunction)
        + (if e.meshHandle in meshes then [QueueItem(view, meshes[e.meshHandle], e, sp, drawFunction)] else [])
  }

  /** The entities whose mesh is loaded, in query order. */
  function LoadedMeshes(es: seq<MaterialMesh>, meshes: map<Handle, GpuMesh>): seq<MaterialMesh> {
    if es == [] then []
    else
      var e := es[|es| - 1];
      LoadedMeshes(es[..|es| - 1], meshes) + (if e.meshHandle in meshes then [e] else [])
  }

  /** An entity is kept exactly when it is queried and its mesh is loaded. */
  lemma {:induction false} LoadedMeshesFilter(es: seq<MaterialMesh>, meshes: map<Handle, GpuMesh>)
    ensures forall e :: e in LoadedMeshes(es, meshes) <==> e in es && e.meshHandle in meshes
    ensures |LoadedMeshes(es, meshes)| <= |es|
  {
    if es != [] {
      var init := es[..|es| - 1];
      LoadedMeshesFilter(init, meshes);
      assert es == init + [es[|es| - 1]];
    }
  }

  /**
   * The filter keeps query order: the entities kept from the first k rows of
   * the query come first, before any kept from later rows.
   */
  lemma {:induction false} LoadedMeshesKeepOrder(es: seq<MaterialMesh>, meshes: map<Handle, GpuMesh>, k: nat)
    requires k <= |es|
    ensures LoadedMeshes(es[..k], meshes) <= LoadedMeshes(es, meshes)
  {
    if k < |es| {
      var init := es[..|es| - 1];
      assert es[..k] == init[..k];
      LoadedMeshesKeepOrder(init, meshes, k);
    } else {
      assert es[..k] == es;
    }
  }

  /** Exactly one phase item per entity with a loaded mesh, in query order. */
  lemma {:induction false} QueuedOnePerLoadedMesh(view: ExtractedView, es: seq<MaterialMesh>, meshes: map<Handle, GpuMesh>,
                                                  sp: MeshSpecializer, drawFunction: nat)
    ensures var q, l := QueuedItems(view, es, meshes, sp, drawFunction), LoadedMeshes(es, meshes);
      && |q| == |l|
      && forall k :: 0 <= k < |l| ==> l[k].meshHandle in meshes && q[k] == QueueItem(view, meshes[l[k].meshHandle], l[k], sp, drawFunction)
  {
    if es != [] {
      QueuedOnePerLoadedMesh(view, es[..|es| - 1], meshes, sp, drawFunction);
    }
  }

  /** The items of a prefix grow by the item of the next entity, if its mesh is loaded. */
  lemma QueuedStep(view: ExtractedView, es: seq<MaterialMesh>, i: nat, meshes: map<Handle, GpuMesh>, sp: MeshSpecializer, drawFunction: nat)
    requires i < |es|
    ensures QueuedItems(view, es[..i + 1], meshes, sp, drawFunction)
      == QueuedItems(view, es[..i], meshes, sp, drawFunction)
         + (if es[i].meshHandle in meshes then [QueueItem(view, meshes[es[i].meshHandle], es[i], sp, drawFunction)] else [])
  {
    assert es[..i + 1][..i] == es[..i];
  }

  /** The body of `queue_custom_material` for one view: its loaded material meshes into its phase. */
  method QueueMaterialView(view: ExtractedView, transparentPhase: RenderPhase<Transparent3d>, materialMeshes: seq<MaterialMesh>,
                           meshes: map<Handle, GpuMesh>, sp: MeshSpecializer, drawCustom: nat)
    modifies transparentPhase
    ensures transparentPhase.items == old(transparentPhase.items) + QueuedItems(view, materialMeshes, meshes, sp, drawCustom)
  {
    for i := 0 to |materialMeshes|
      invariant transparentPhase.items == old(transparentPhase.items) + QueuedItems(view, materialMeshes[..i], meshes, sp, drawCustom)
    {
      var e := materialMeshes[i];
      QueuedStep(view, materialMeshes, i, meshes, sp, drawCustom);
      if e.meshHandle in meshes {
        var mesh := meshes[e.meshHandle];
        var key := MeshKey(sp, mesh);
        var pipeline := sp.specialize(key, mesh.layout);
        transparentPhase.Add(Transparent3d(e.entity, pipeline, drawCustom, view.distance(e.transform)));
      }
    }
    assert materialMeshes[..|materialMeshes|] == materialMeshes;
  }

  /** `queue_custom_material`: for every view, the queued items are appended to its own phase. */
  method QueueCustomMaterial(views: seq<ExtractedView>, phases: seq<RenderPhase<Transparent3d>>, materialMeshes: seq<MaterialMesh>,
                             meshes: map<Handle, GpuMesh>, sp: MeshSpecializer, drawCustom: nat)
    requires |views| == |phases| && DistinctPhases(phases)
    modifies set p | p in phases
    ensures forall j :: 0 <= j < |phases| ==>
      phases[j].items == old(phases[j].items) + QueuedItems(views[j], materialMeshes, meshes, sp, drawCustom)
  {
    for j := 0 to |views|
      invariant forall k :: 0 <= k < j ==>
        phases[k].items == old(phases[k].items) + QueuedItems(views[k], materialMeshes, meshes, sp, drawCustom)
      invariant forall k :: j <= k < |phases| ==> phases[k].items == old(phases[k].items)
    {
      QueueMaterialView(views[j], phases[j], materialMeshes, meshes, sp, drawCustom);
    }
  }
}
