/**
 * The instanced light material (LightMaterialPlugin): one translation matrix
 * per instance, the four-attribute instance layout, the three-entry bind
 * group of view, projection and colour, and the prepare system.
 *
 * The prepare system reads `.position` from the elements of
 * InstanceMaterialData, so those elements are modelled here as records with a
 * position (LightInstanceData); ColorUniform, whose definition is not part of
 * this model, is a Vec4, the 16 bytes its layout entry asks for. The render
 * commands are those of CustomMaterial.
 */
module LightMaterial {
  import opened Glam
  import opened Render
  import opened CustomMaterial
  import Camera

  /** An element of InstanceMaterialData, as light_material uses it. */
  datatype LightInstanceData = LightInstanceData(position: Vec3)

  /** `.map(|instance| Mat4::from_translation(instance.position))`: keeps count and order. */
  function TranslationMatrices(data: seq<LightInstanceData>): (ms: seq<Mat4>)
    ensures |ms| == |data|
    ensures forall i :: 0 <= i < |data| ==> ms[i] == FromTranslation(data[i].position)
  {
    if data == [] then []
    else TranslationMatrices(data[..|data| - 1]) + [FromTranslation(data[|data| - 1].position)]
  }

  /** The InstanceBuffer component inserted for an entity's instances. */
  function LightBuffer(data: seq<LightInstanceData>): (b: InstanceBuffer)
    ensures b.length == |data| && |b.buffer| == 16 * b.length
  {
    InstanceBuffer(MatricesWords(TranslationMatrices(data)), |data|)
  }

  /**
   * The instance-step layout pushed by specialize: four Float32x4 attributes
   * at shader locations 3 to 6 that tile the 64-byte Mat4 stride.
   */
  function LightInstanceLayout(): (l: VertexBufferLayout)
    ensures Packed(l) && LocationsFrom(l, 3)
    ensures l.arrayStride == MAT4_SIZE && l.stepMode == PerInstance && |l.attributes| == 4
    ensures forall k :: 0 <= k < 4 ==> l.attributes[k] == VertexAttribute(Float32x4, 16 * k, 3 + k)
  {
    InstanceLayoutPacked(3, 4, MAT4_SIZE);
    InstanceLayout(3, 4, MAT4_SIZE)
  }

  /**
   * Location 3 + k of instance i reads column k of the translation to its
   * position: a unit axis for k < 3, and the position with w = 1 for k = 3.
   */
  lemma LightAttributesReadTranslation(data: seq<LightInstanceData>, i: nat, k: nat)
    requires i < |data| && k < 4
    ensures AttributeWords(LightBuffer(data).buffer, LightInstanceLayout(), i, k) == Vec4Words(Column(FromTranslation(data[i].position), k))
    ensures k == 3 ==> AttributeWords(LightBuffer(data).buffer, LightInstanceLayout(), i, k) == Vec4Words(Extend(data[i].position, 1.0))
  {
    var l, ms := LightInstanceLayout(), TranslationMatrices(data);
    MatrixColumnWords(ms, i, k);
    assert AttributeWords(MatricesWords(ms), l, i, k) == MatricesWords(ms)[16 * i + 4 * k .. 16 * i + 4 * k + 4];
    TranslationMovesOrigin(data[i].position);
  }

  /** The "Uniforms" bind group layout of LightMaterialPipeline. */
  const LIGHT_UNIFORMS_LAYOUT: seq<BindGroupLayoutEntry> := [
    BindGroupLayoutEntry(0, VertexStage, UniformBuffer(MAT4_SIZE)),
    BindGroupLayoutEntry(1, VertexStage, UniformBuffer(MAT4_SIZE)),
    BindGroupLayoutEntry(2, FragmentStage, UniformBuffer(VEC4_SIZE))
  ]

  /**
   * The "light uniform bind group": view and projection for the vertex stage
   * and the colour for the fragment stage, agreeing with the layout.
   */
  function LightBindGroup(view: Mat4, proj: Mat4, color: Vec4): (g: BindGroup)
    ensures g.layout == LIGHT_UNIFORMS_LAYOUT && DistinctBindings(g.layout) && Conforms(g)
    ensures |g.entries| == 3 && forall k :: 0 <= k < 3 ==> g.entries[k].resource.EntireBuffer?
    ensures g.layout[0].visibility == g.layout[1].visibility == VertexStage && g.layout[2].visibility == FragmentStage
    ensures g.entries[0].resource.contents == Mat4Words(view)
    ensures g.entries[1].resource.contents == Mat4Words(proj)
    ensures g.entries[2].resource.contents == Vec4Words(color)
  {
    BindGroup(LIGHT_UNIFORMS_LAYOUT, [
      BindGroupEntry(0, EntireBuffer(Mat4Words(view))),
      BindGroupEntry(1, EntireBuffer(Mat4Words(proj))),
      BindGroupEntry(2, EntireBuffer(Vec4Words(color)))
    ])
  }

  /** One result of the query `(Entity, &InstanceMaterialData, &ColorUniform)` */
  datatype LightRow = LightRow(entity: Entity, instanceData: seq<LightInstanceData>, color: Vec4)

  /** The insertions of the prepare system, row by row. */
  function LightInsertions(rows: seq<LightRow>, view: Mat4, proj: Mat4): seq<Insertion<Component>> {
    if rows == [] then []
    else
      LightInsertions(rows[..|rows| - 1], view, proj) + RowInsertions(rows[|rows| - 1], view, proj)
  }

  /** The two insertions of one row. */
  function RowInsertions(r: LightRow, view: Mat4, proj: Mat4): seq<Insertion<Component>> {
    [Insertion(r.entity, InstanceBufferComponent(LightBuffer(r.instanceData))),
     Insertion(r.entity, UniformMetaComponent(UniformMeta(LightBindGroup(view, proj, r.color))))]
  }

  /** The insertions of the first i + 1 rows extend those of the first i by row i's two. */
  lemma LightInsertionsStep(rows: seq<LightRow>, i: nat, view: Mat4, proj: Mat4)
    requires i < |rows|
    ensures LightInsertions(rows[..i + 1], view, proj) == LightInsertions(rows[..i], view, proj) + RowInsertions(rows[i], view, proj)
  {
    assert rows[..i + 1][..i] == rows[..i];
  }

  /** Row i gets, at 2i, a buffer of its translations whose length is its instance count, then its bind group. */
  lemma {:induction false} LightInsertionsPerRow(rows: seq<LightRow>, view: Mat4, proj: Mat4)
    ensures var q := LightInsertions(rows, view, proj);
      && |q| == 2 * |rows|
      && forall i :: 0 <= i < |rows| ==>
           && q[2 * i] == Insertion(rows[i].entity, InstanceBufferComponent(LightBuffer(rows[i].instanceData)))
           && q[2 * i + 1] == Insertion(rows[i].entity, UniformMetaComponent(UniformMeta(LightBindGroup(view, proj, rows[i].color))))
  {
    if rows != [] {
      var n := |rows| - 1;
      var init := rows[..n];
      LightInsertionsPerRow(init, view, proj);
      var q, q0 := LightInsertions(rows, view, proj), LightInsertions(init, view, proj);
      forall i | 0 <= i < |rows|
        ensures q[2 * i] == RowInsertions(rows[i], view, proj)[0] && q[2 * i + 1] == RowInsertions(rows[i], view, proj)[1]
      {
        if i < n {
          assert rows[i] == init[i];
        }
      }
    }
  }

  /** The body of the prepare loop: the row's instance buffer, then its bind group over view and proj. */
  method PrepareLightRow(commands: Commands<Component>, row: LightRow, view: Mat4, proj: Mat4)
    modifies commands
    ensures commands.queued == old(commands.queued) + RowInsertions(row, view, proj)
  {
    commands.Insert(row.entity, InstanceBufferComponent(InstanceBuffer(MatricesWords(TranslationMatrices(row.instanceData)), |row.instanceData|)));
    var bindGroup := LightBindGroup(view, proj, row.color);
    commands.Insert(row.entity, UniformMetaComponent(UniformMeta(bindGroup)));
  }

  /** `prepare_light_material_buffers`, with the camera resource of the render world. */
  method PrepareLightMaterialBuffers(commands: Commands<Component>, rows: seq<LightRow>, camera: Camera.CustomCamera, m: MathEnv)
    modifies commands
    ensures commands.queued == old(commands.queued) + LightInsertions(rows, camera.GetView(m), camera.GetProj(m))
  {
    ghost var view, proj := camera.GetView(m), camera.GetProj(m);
    for i := 0 to |rows|
      invariant commands.queued == old(commands.queued) + LightInsertions(rows[..i], view, proj)
    {
      var viewBuffer := camera.GetView(m);
      var projBuffer := camera.GetProj(m);
      LightInsertionsStep(rows, i, view, proj);
      PrepareLightRow(commands, rows[i], viewBuffer, projBuffer);
    }
    assert rows[..|rows|] == rows;
  }

  /** Drawing a prepared entity binds its translation words at slot 1 and draws one instance per element. */
  lemma PreparedLightInstancesAreDrawn(data: seq<LightInstanceData>, item: Entity, meshHandles: map<Entity, Handle>,
                                       instanceBuffers: map<Entity, InstanceBuffer>, meshes: map<Handle, GpuMesh>)
    requires item in meshHandles && meshHandles[item] in meshes
    requires item in instanceBuffers && instanceBuffers[item] == LightBuffer(data)
    requires |data| < U32_MODULUS
    ensures var r := DrawMeshInstanced(item, meshHandles, instanceBuffers, meshes);
      && r.Returned? && r.value.result == Success
      && r.value.commands[1] == VertexBufferAt(1, Words(LightBuffer(data).buffer))
      && r.value.commands[|r.value.commands| - 1].instances == Range(0, |data|)
  {
  }
}
