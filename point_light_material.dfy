/**
 * The instanced point-light material (PointLightMaterialPlugin): the
 * conversion of point lights into 112-byte render instances, their
 * seven-attribute vertex layout, the two-matrix bind group, and the prepare
 * system that fills them from the camera resource.
 *
 * Its DrawMeshInstanced and SetUniformsBindGroup render commands repeat
 * those of the custom material word for word, and are the ones modelled in
 * CustomMaterial; InstanceBuffer and UniformMeta are imported from there.
 */
module PointLightMaterial {
  import opened Glam
  import opened Render
  import opened CustomMaterial
  import Camera

  /** `PointLightInstance` */
  datatype PointLightInstance = PointLightInstance(
    position: Vec3,
    constant: real,
    linear: real,
    quadratic: real,
    ambient: Vec4,
    diffuse: Vec4,
    specular: Vec4)

  /** `RenderPointLightInstance`, #[repr(C)]: a translation matrix and three colours. */
  datatype RenderPointLightInstance = RenderPointLightInstance(position: Mat4, ambient: Vec4, diffuse: Vec4, specular: Vec4)

  /** std::mem::size_of::<RenderPointLightInstance>() */
  const RENDER_POINT_LIGHT_INSTANCE_SIZE: nat := MAT4_SIZE + 3 * VEC4_SIZE

  /** The closure of the `map` in prepare_point_light_material_buffers. */
  function ToRenderInstance(light: PointLightInstance): RenderPointLightInstance {
    RenderPointLightInstance(FromTranslation(light.position), light.ambient, light.diffuse, light.specular)
  }

  /** `iter().map(...).collect()`: keeps count and order. */
  function ToRenderInstances(lights: seq<PointLightInstance>): (rs: seq<RenderPointLightInstance>)
    ensures |rs| == |lights|
    ensures forall i :: 0 <= i < |lights| ==>
      && rs[i].position == FromTranslation(lights[i].position)
      && rs[i].ambient == lights[i].ambient
      && rs[i].diffuse == lights[i].diffuse
      && rs[i].specular == lights[i].specular
  {
    if lights == [] then []
    else ToRenderInstances(lights[..|lights| - 1]) + [ToRenderInstance(lights[|lights| - 1])]
  }

  /** The attenuation terms do not reach the GPU: lights that differ only in them render alike. */
  lemma AttenuationIsDropped(a: PointLightInstance, b: PointLightInstance)
    requires a.position == b.position && a.ambient == b.ambient && a.diffuse == b.diffuse && a.specular == b.specular
    ensures ToRenderInstance(a) == ToRenderInstance(b)
    ensures ToRenderInstance(a) == ToRenderInstance(a.(constant := 0.0, linear := 0.0, quadratic := 0.0))
  {
  }

  /** One render instance as 28 words: the matrix, then ambient, diffuse and specular. */
  function RenderInstanceWords(r: RenderPointLightInstance): (w: seq<real>)
    ensures |w| == 28
    ensures w[..16] == Mat4Words(r.position)
    ensures w[16..20] == Vec4Words(r.ambient) && w[20..24] == Vec4Words(r.diffuse) && w[24..28] == Vec4Words(r.specular)
  {
    var w := Mat4Words(r.position) + Vec4Words(r.ambient) + Vec4Words(r.diffuse) + Vec4Words(r.specular);
    assert w[..16] == Mat4Words(r.position);
    w
  }

  /** The instance buffer of one entity: its lights' render instances, one after another. */
  function PointLightWords(lights: seq<PointLightInstance>): (w: seq<real>)
    ensures |w| == 28 * |lights|
    ensures forall i :: 0 <= i < |lights| ==> w[28 * i .. 28 * i + 28] == RenderInstanceWords(ToRenderInstance(lights[i]))
  {
    var chunks := seq(|lights|, i requires 0 <= i < |lights| => RenderInstanceWords(ToRenderInstance(lights[i])));
    assert Uniform(chunks, 28);
    ConcatLength(chunks, 28);
    forall i | 0 <= i < |lights|
      ensures Concat(chunks)[28 * i .. 28 * i + 28] == RenderInstanceWords(ToRenderInstance(lights[i]))
    {
      ConcatChunk(chunks, 28, i);
    }
    Concat(chunks)
  }

  /** The InstanceBuffer component inserted for an entity's lights. */
  function PointLightBuffer(lights: seq<PointLightInstance>): (b: InstanceBuffer)
    ensures b.length == |lights| && |b.buffer| == 28 * b.length
  {
    InstanceBuffer(PointLightWords(lights), |lights|)
  }

  /**
   * The instance-step layout pushed by specialize: seven Float32x4
   * attributes at shader locations 3 to 9 that tile the 112-byte stride.
   */
  function PointLightInstanceLayout(): (l: VertexBufferLayout)
    ensures Packed(l) && LocationsFrom(l, 3)
    ensures l.arrayStride == RENDER_POINT_LIGHT_INSTANCE_SIZE == 112 && l.stepMode == PerInstance && |l.attributes| == 7
    ensures forall k :: 0 <= k < 7 ==> l.attributes[k] == VertexAttribute(Float32x4, 16 * k, 3 + k)
  {
    InstanceLayoutPacked(3, 7, RENDER_POINT_LIGHT_INSTANCE_SIZE);
    InstanceLayout(3, 7, RENDER_POINT_LIGHT_INSTANCE_SIZE)
  }

  /**
   * Locations 3 to 6 of light i read the columns of the translation to its
   * position, 7 its ambient, 8 its diffuse and 9 its specular colour.
   */
  lemma PointLightAttributesReadFields(lights: seq<PointLightInstance>, i: nat, k: nat)
    requires i < |lights| && k < 7
    ensures var l, light := PointLightInstanceLayout(), lights[i];
      AttributeWords(PointLightWords(lights), l, i, k) ==
        if k < 4 then Vec4Words(Column(FromTranslation(light.position), k))
        else if k == 4 then Vec4Words(light.ambient)
        else if k == 5 then Vec4Words(light.diffuse)
        else Vec4Words(light.specular)
  {
    var w := PointLightWords(lights);
    var r := RenderInstanceWords(ToRenderInstance(lights[i]));
    assert w[28 * i .. 28 * i + 28] == r;
    assert w[28 * i + 4 * k .. 28 * i + 4 * k + 4] == r[4 * k .. 4 * k + 4];
    if k < 4 {
      assert r[4 * k .. 4 * k + 4] == r[..16][4 * k .. 4 * k + 4];
    }
  }

  /** The "Uniforms" bind group layout of PointLightMaterialPipeline. */
  const POINT_LIGHT_UNIFORMS_LAYOUT: seq<BindGroupLayoutEntry> := [
    BindGroupLayoutEntry(0, VertexStage, UniformBuffer(MAT4_SIZE)),
    BindGroupLayoutEntry(1, VertexStage, UniformBuffer(MAT4_SIZE))
  ]

  /** The "light uniform bind group": exactly the view and the projection matrix, agreeing with the layout. */
  function PointLightBindGroup(view: Mat4, proj: Mat4): (g: BindGroup)
    ensures g.layout == POINT_LIGHT_UNIFORMS_LAYOUT && DistinctBindings(g.layout) && Conforms(g)
    ensures |g.entries| == 2
    ensures forall k :: 0 <= k < 2 ==> g.layout[k].visibility == VertexStage && g.entries[k].resource.EntireBuffer?
    ensures g.entries[0].resource.contents == Mat4Words(view) && g.entries[1].resource.contents == Mat4Words(proj)
  {
    BindGroup(POINT_LIGHT_UNIFORMS_LAYOUT, [
      BindGroupEntry(0, EntireBuffer(Mat4Words(view))),
      BindGroupEntry(1, EntireBuffer(Mat4Words(proj)))
    ])
  }

  /** A render-world entity, as the prepare query sees it. */
  datatype LightEntity = LightEntity(entity: Entity, pointLightMaterial: bool, instances: Option<seq<PointLightInstance>>)

  /** The query `(Entity, &PointLightInstances), With<PointLightMaterial>` */
  predicate Matches(e: LightEntity) {
    e.pointLightMaterial && e.instances.Some?
  }

  function MatchingLights(world: seq<LightEntity>): seq<LightEntity> {
    if world == [] then []
    else MatchingLights(world[..|world| - 1]) + (if Matches(world[|world| - 1]) then [world[|world| - 1]] else [])
  }

  /** The insertions of the prepare system, entity by entity. */
  function PointLightInsertions(world: seq<LightEntity>, view: Mat4, proj: Mat4): seq<Insertion<Component>> {
    if world == [] then []
    else
      var e := world[|world| - 1];
      PointLightInsertions(world[..|world| - 1], view, proj)
        + (if Matches(e) then
             [Insertion(e.entity, InstanceBufferComponent(PointLightBuffer(e.instances.value))),
              Insertion(e.entity, UniformMetaComponent(UniformMeta(PointLightBindGroup(view, proj))))]
           else [])
  }

  /** Only tagged entities that carry point-light instances are prepared. */
  lemma {:induction false} MatchingLightsFilter(world: seq<LightEntity>)
    ensures forall e :: e in MatchingLights(world) <==> e in world && e.pointLightMaterial && e.instances.Some?
  {
    if world != [] {
      MatchingLightsFilter(world[..|world| - 1]);
      assert world == world[..|world| - 1] + [world[|world| - 1]];
    }
  }

  /** Entity i of the query gets, at 2i, a buffer of its lights whose length is their count, then the bind group. */
  predicate LightQueued(queued: seq<Insertion<Component>>, e: LightEntity, view: Mat4, proj: Mat4, i: nat)
    requires 2 * i + 1 < |queued| && e.instances.Some?
  {
    && queued[2 * i] == Insertion(e.entity, InstanceBufferComponent(PointLightBuffer(e.instances.value)))
    && queued[2 * i + 1] == Insertion(e.entity, UniformMetaComponent(UniformMeta(PointLightBindGroup(view, proj))))
  }

  lemma {:induction false} PointLightInsertionsPerEntity(world: seq<LightEntity>, view: Mat4, proj: Mat4)
    ensures var q, t := PointLightInsertions(world, view, proj), MatchingLights(world);
      && |q| == 2 * |t|
      && forall i :: 0 <= i < |t| ==> t[i].instances.Some? && LightQueued(q, t[i], view, proj, i)
  {
    if world != [] {
      var init := world[..|world| - 1];
      PointLightInsertionsPerEntity(init, view, proj);
      var q, t := PointLightInsertions(world, view, proj), MatchingLights(world);
      var q0, t0 := PointLightInsertions(init, view, proj), MatchingLights(init);
      forall i | 0 <= i < |t|
        ensures t[i].instances.Some? && LightQueued(q, t[i], view, proj, i)
      {
        if i < |t0| {
          assert t[i] == t0[i];
          assert LightQueued(q0, t0[i], view, proj, i);
          assert q[2 * i] == q0[2 * i] && q[2 * i + 1] == q0[2 * i + 1];
        }
      }
    }
  }

  /** `prepare_point_light_material_buffers`, with the camera resource of the render world. */
  method PreparePointLightMaterialBuffers(commands: Commands<Component>, world: seq<LightEntity>, camera: Camera.CustomCamera, m: MathEnv)
    modifies commands
    ensures commands.queued == old(commands.queued) + PointLightInsertions(world, camera.GetView(m), camera.GetProj(m))
  {
    for i := 0 to |world|
      invariant commands.queued == old(commands.queued) + PointLightInsertions(world[..i], camera.GetView(m), camera.GetProj(m))
    {
      var e := world[i];
      assert world[..i + 1][..i] == world[..i];
      if e.pointLightMaterial && e.instances.Some? {
        var lightInstances := e.instances.value;
        commands.Insert(e.entity, InstanceBufferComponent(InstanceBuffer(PointLightWords(lightInstances), |lightInstances|)));
        var bindGroup := PointLightBindGroup(camera.GetView(m), camera.GetProj(m));
        commands.Insert(e.entity, UniformMetaComponent(UniformMeta(bindGroup)));
      }
    }
    assert world[..|world|] == world;
  }

  /** Drawing a prepared entity binds its light words at slot 1 and draws one instance per light. */
  lemma PreparedLightsAreDrawn(lights: seq<PointLightInstance>, item: Entity, meshHandles: map<Entity, Handle>,
                               instanceBuffers: map<Entity, InstanceBuffer>, meshes: map<Handle, GpuMesh>)
    requires item in meshHandles && meshHandles[item] in meshes
    requires item in instanceBuffers && instanceBuffers[item] == PointLightBuffer(lights)
    requires |lights| < U32_MODULUS
    ensures var r := DrawMeshInstanced(item, meshHandles, instanceBuffers, meshes);
      && r.Returned? && r.value.result == Success
      && r.value.commands[1] == VertexBufferAt(1, Words(PointLightWords(lights)))
      && r.value.commands[|r.value.commands| - 1].instances == Range(0, |lights|)
  {
  }
}
