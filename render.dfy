/**
 * The part of Bevy's render API that the materials use: meshes prepared on
 * the GPU, bind groups and their layouts, vertex buffer layouts, the render
 * pass (as the list of commands recorded into it), render phases, and the
 * deferred ECS command queue.
 *
 * GPU buffers created by the examples are the f32 words written into them;
 * buffers created by the engine (mesh vertex and index buffers) are opaque
 * identifiers.
 */
module Render {
  import opened Glam

  type Entity = int

  /** An asset handle (Handle<Mesh>, Handle<Image>, ...). */
  type Handle = int

  datatype Option<T> = None | Some(value: T)

  /** What a system or render command ends with: its value, or the panic of an `unwrap`. */
  datatype Outcome<T> = Returned(value: T) | Panicked(reason: string)

  const U32_MODULUS: nat := 0x1_0000_0000

  /** `n as u32` for a usize n: keeps the low 32 bits. */
  function AsU32(n: nat): (r: nat)
    ensures r < U32_MODULUS
    ensures n < U32_MODULUS ==> r == n
    ensures U32_MODULUS <= n ==> r != n
  {
    n % U32_MODULUS
  }

  /** `start..end` */
  datatype Range = Range(start: nat, end: nat)

  /** std::mem::size_of of the types that reach the GPU, in bytes. */
  const F32_SIZE: nat := 4
  const VEC4_SIZE: nat := 16
  const MAT4_SIZE: nat := 64

  /** The byte size of a buffer holding these f32 words. */
  function ByteSize(words: seq<real>): nat {
    F32_SIZE * |words|
  }

  datatype Buffer = Engine(id: nat) | Words(contents: seq<real>)

  // ---------------------------------------------------------------------------
  // Meshes prepared by the engine (RenderAssets<Mesh>).
  // ---------------------------------------------------------------------------

  datatype IndexFormat = Uint16 | Uint32

  datatype PrimitiveTopology = PointList | LineList | LineStrip | TriangleList | TriangleStrip

  datatype GpuBufferInfo =
    | Indexed(buffer: Buffer, indexFormat: IndexFormat, count: nat)
    | NonIndexed(vertexCount: nat)

  /** `GpuMesh`; `layout` identifies its MeshVertexBufferLayout. */
  datatype GpuMesh = GpuMesh(vertexBuffer: Buffer, bufferInfo: GpuBufferInfo, primitiveTopology: PrimitiveTopology, layout: nat)

  // ---------------------------------------------------------------------------
  // Bind groups and their layouts.
  // ---------------------------------------------------------------------------

  datatype ShaderStage = VertexStage | FragmentStage

  /**
   * The binding types the examples declare: a uniform buffer without dynamic
   * offset and with a minimum size, a filterable float 2D texture, and a
   * filtering sampler.
   */
  datatype BindingType = UniformBuffer(minBindingSize: nat) | FilterableTexture2d | FilteringSampler

  datatype BindGroupLayoutEntry = BindGroupLayoutEntry(binding: nat, visibility: ShaderStage, ty: BindingType)

  /** `as_entire_binding()` of a buffer with these words, a texture view, or a sampler. */
  datatype BindingResource = EntireBuffer(contents: seq<real>) | TextureView(view: nat) | Sampler(sampler: nat)

  datatype BindGroupEntry = BindGroupEntry(binding: nat, resource: BindingResource)

  datatype BindGroup = BindGroup(layout: seq<BindGroupLayoutEntry>, entries: seq<BindGroupEntry>)

  /** The resource is of the kind the binding type asks for, and a buffer is at least the minimum size. */
  predicate ResourceFits(r: BindingResource, ty: BindingType) {
    match ty
    case UniformBuffer(min) => r.EntireBuffer? && min <= ByteSize(r.contents)
    case FilterableTexture2d => r.TextureView?
    case FilteringSampler => r.Sampler?
  }

  /** No binding number is used twice. */
  predicate DistinctBindings(layout: seq<BindGroupLayoutEntry>) {
    forall i, j :: 0 <= i < j < |layout| ==> layout[i].binding != layout[j].binding
  }

  /**
   * A bind group agrees with its layout: one entry per layout entry, in
   * order, each with the layout entry's binding number and a resource that
   * fits its binding type.
   */
  predicate Conforms(g: BindGroup) {
    && |g.entries| == |g.layout|
    && forall i :: 0 <= i < |g.entries| ==>
         g.entries[i].binding == g.layout[i].binding && ResourceFits(g.entries[i].resource, g.layout[i].ty)
  }

  /** In a conforming group with distinct bindings, each layout binding is served by exactly one entry. */
  lemma ConformingGroupServesEachBindingOnce(g: BindGroup, i: nat)
    requires Conforms(g) && DistinctBindings(g.layout)
    requires i < |g.layout|
    ensures exists k :: 0 <= k < |g.entries| && g.entries[k].binding == g.layout[i].binding
    ensures forall k :: 0 <= k < |g.entries| && g.entries[k].binding == g.layout[i].binding ==>
              k == i && ResourceFits(g.entries[k].resource, g.layout[i].ty)
  {
    assert g.entries[i].binding == g.layout[i].binding;
  }

  // ---------------------------------------------------------------------------
  // Vertex buffer layouts.
  // ---------------------------------------------------------------------------

  datatype VertexFormat = Float32x4

  /** `VertexFormat::size` */
  function FormatSize(f: VertexFormat): nat {
    match f
    case Float32x4 => 16
  }

  datatype VertexStepMode = PerVertex | PerInstance

  datatype VertexAttribute = VertexAttribute(format: VertexFormat, offset: nat, shaderLocation: nat)

  datatype VertexBufferLayout = VertexBufferLayout(arrayStride: nat, stepMode: VertexStepMode, attributes: seq<VertexAttribute>)

  /** The byte just after an attribute. */
  function End(a: VertexAttribute): nat {
    a.offset + FormatSize(a.format)
  }

  /**
   * The attributes follow one another without gaps: the first starts at 0,
   * each starts where the previous one ends, and the last ends at the stride.
   */
  predicate Packed(l: VertexBufferLayout) {
    && |l.attributes| > 0
    && l.attributes[0].offset == 0
    && (forall i :: 0 < i < |l.attributes| ==> l.attributes[i].offset == End(l.attributes[i - 1]))
    && End(l.attributes[|l.attributes| - 1]) == l.arrayStride
  }

  /** Attribute i is at shader location first + i. */
  predicate LocationsFrom(l: VertexBufferLayout, first: nat) {
    forall i :: 0 <= i < |l.attributes| ==> l.attributes[i].shaderLocation == first + i
  }

  lemma {:induction false} PackedOrdered(l: VertexBufferLayout, i: nat, j: nat)
    requires Packed(l)
    requires i < j < |l.attributes|
    ensures End(l.attributes[i]) <= l.attributes[j].offset
    decreases j - i
  {
    if i + 1 < j {
      PackedOrdered(l, i + 1, j);
    }
  }

  lemma {:induction false} PackedWithinStride(l: VertexBufferLayout, i: nat)
    requires Packed(l)
    requires i < |l.attributes|
    ensures End(l.attributes[i]) <= l.arrayStride
  {
    var last := |l.attributes| - 1;
    if i < last {
      PackedOrdered(l, i, last);
    }
  }

  /** In a packed layout no two attributes overlap, and every attribute lies inside the stride. */
  lemma PackedTiles(l: VertexBufferLayout)
    requires Packed(l)
    ensures forall i, j :: 0 <= i < j < |l.attributes| ==> End(l.attributes[i]) <= l.attributes[j].offset
    ensures forall i :: 0 <= i < |l.attributes| ==> End(l.attributes[i]) <= l.arrayStride
  {
    forall i, j | 0 <= i < j < |l.attributes|
      ensures End(l.attributes[i]) <= l.attributes[j].offset
    {
      PackedOrdered(l, i, j);
    }
    forall i | 0 <= i < |l.attributes|
      ensures End(l.attributes[i]) <= l.arrayStride
    {
      PackedWithinStride(l, i);
    }
  }

  /** Attribute i, of Float32x4 format at shader location first + i, at byte offset 16 * i. */
  function Float32x4Attribute(first: nat, i: nat): VertexAttribute {
    VertexAttribute(Float32x4, 16 * i, first + i)
  }

  /** `count` Float32x4 attributes at consecutive offsets and shader locations, per instance. */
  function InstanceLayout(first: nat, count: nat, stride: nat): VertexBufferLayout {
    VertexBufferLayout(stride, PerInstance, seq(count, i requires 0 <= i < count => Float32x4Attribute(first, i)))
  }

  /** Such a layout is packed exactly when its stride is 16 bytes per attribute. */
  lemma InstanceLayoutPacked(first: nat, count: nat, stride: nat)
    requires 0 < count
    ensures Packed(InstanceLayout(first, count, stride)) <==> stride == 16 * count
    ensures LocationsFrom(InstanceLayout(first, count, stride), first)
  {
    var l := InstanceLayout(first, count, stride);
    assert End(l.attributes[count - 1]) == 16 * count;
  }

  /**
   * The words that attribute a of instance `instance` reads from an
   * instance-step buffer: from byte instance * stride + offset, for the
   * attribute's size.
   */
  function AttributeWords(words: seq<real>, l: VertexBufferLayout, instance: nat, a: nat): seq<real>
    requires a < |l.attributes|
    requires l.arrayStride % 4 == 0 && l.attributes[a].offset % 4 == 0
    requires l.arrayStride / 4 * instance + End(l.attributes[a]) / 4 <= |words|
  {
    var first := l.arrayStride / 4 * instance + l.attributes[a].offset / 4;
    words[first .. first + FormatSize(l.attributes[a].format) / 4]
  }

  // ---------------------------------------------------------------------------
  // Render passes, phases and commands.
  // ---------------------------------------------------------------------------

  datatype PassCommand =
    | VertexBufferAt(slot: nat, buffer: Buffer)
    | IndexBufferAt(buffer: Buffer, offset: nat, indexFormat: IndexFormat)
    | DrawIndexedCall(indices: Range, baseVertex: int, instances: Range)
    | DrawCall(vertices: Range, instances: Range)
    | BindGroupAt(index: nat, group: BindGroup, dynamicOffsets: seq<nat>)

  predicate IsDraw(c: PassCommand) {
    c.DrawIndexedCall? || c.DrawCall?
  }

  datatype RenderCommandResult = Success | Failure

  /** `TrackedRenderPass`: everything a render command does to it is recorded, in order. */
  class TrackedRenderPass {
    var commands: seq<PassCommand>

    constructor ()
      ensures commands == []
    {
      commands := [];
    }

    method SetVertexBuffer(slot: nat, buffer: Buffer)
      modifies this
      ensures commands == old(commands) + [VertexBufferAt(slot, buffer)]
    {
      commands := commands + [VertexBufferAt(slot, buffer)];
    }

    method SetIndexBuffer(buffer: Buffer, offset: nat, indexFormat: IndexFormat)
      modifies this
      ensures commands == old(commands) + [IndexBufferAt(buffer, offset, indexFormat)]
    {
      commands := commands + [IndexBufferAt(buffer, offset, indexFormat)];
    }

    method DrawIndexed(indices: Range, baseVertex: int, instances: Range)
      modifies this
      ensures commands == old(commands) + [DrawIndexedCall(indices, baseVertex, instances)]
    {
      commands := commands + [DrawIndexedCall(indices, baseVertex, instances)];
    }

    method Draw(vertices: Range, instances: Range)
      modifies this
      ensures commands == old(commands) + [DrawCall(vertices, instances)]
    {
      commands := commands + [DrawCall(vertices, instances)];
    }

    method SetBindGroup(index: nat, group: BindGroup, dynamicOffsets: seq<nat>)
      modifies this
      ensures commands == old(commands) + [BindGroupAt(index, group, dynamicOffsets)]
    {
      commands := commands + [BindGroupAt(index, group, dynamicOffsets)];
    }
  }

  /** `RenderPhase<T>`: the phase items of one view, in the order they were added. */
  class RenderPhase<T> {
    var items: seq<T>

    constructor ()
      ensures items == []
    {
      items := [];
    }

    method Add(item: T)
      modifies this
      ensures items == old(items) + [item]
    {
      items := items + [item];
    }
  }

  datatype Insertion<C> = Insertion(entity: Entity, component: C)

  /** ECS `Commands`: component insertions queued for the end of the stage, in order. */
  class Commands<C> {
    var queued: seq<Insertion<C>>

    constructor ()
      ensures queued == []
    {
      queued := [];
    }

    /** `commands.entity(entity).insert(component)` */
    method Insert(entity: Entity, component: C)
      modifies this
      ensures queued == old(queued) + [Insertion(entity, component)]
    {
      queued := queued + [Insertion(entity, component)];
    }
  }

  /** No phase appears twice (each view owns its own render phase). */
  predicate DistinctPhases<T>(phases: seq<RenderPhase<T>>) {
    forall i, j :: 0 <= i < j < |phases| ==> phases[i] != phases[j]
  }
}
