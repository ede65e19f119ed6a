/** A material (src/Material.cpp): its shaders by stage, its binding table,
    its fixed-function pipeline state, and the Vulkan objects that `compile`
    builds from them. Every setter marks the material dirty; `compile`
    rebuilds the descriptor layout, one descriptor set per frame in flight,
    the pipeline layout and the pipeline, and marks it clean.

    `kMaxConcurrentFrames` is the `frames` argument of the build methods.
    The per-frame descriptor sets are a sequence that grows one frame at a
    time in place of the fixed-size array.

    include/kk_renderer/Material.h does not declare the binding table or the
    shader map, so their container type is not known; both are treated as
    hash maps, as ResourceDescriptor.h:22 declares its table. Each map's
    iteration order is kept beside it (`order`, `stageOrder`) and is
    constrained only to list every key once: the setters promise nothing
    more about it, and the set writes and the pipeline stages follow it. */
module Materials {
  import opened Wrappers
  import opened Vk
  import opened BindingTable
  import opened ShaderReflection
  import opened Blocks
  import opened Ordered

  /** Why a build stops: the assertion on a descriptor type that the set
      builder cannot describe. */
  datatype BuildError = UnsupportedDescriptorType(descriptorType: DescriptorType)

  /** The descriptor types the set builder writes. */
  predicate Supported(e: Entry) {
    e.layout.descriptorType == UniformBuffer || e.layout.descriptorType == CombinedImageSampler
  }

  /** The resource behind an entry is what its type says: a buffer behind a
      uniform buffer, a texture behind a combined image sampler. The
      builder reads the stored pointer as that kind of object. */
  predicate EntryWellTyped(e: Entry) {
    (e.layout.descriptorType == UniformBuffer ==> e.resource.BufferResource?) &&
    (e.layout.descriptorType == CombinedImageSampler ==> e.resource.TextureResource?)
  }

  predicate WellTyped(table: map<nat, Entry>) {
    forall k :: k in table ==> EntryWellTyped(table[k])
  }

  predicate AllSupported(table: map<nat, Entry>) {
    forall k :: k in table ==> Supported(table[k])
  }

  /** The write for the entry bound at `key` of set `dst`. */
  function WriteFor(dst: Handle, key: nat, e: Entry): (w: DescriptorWrite)
  {
    DescriptorWrite(dst, key, e.layout.descriptorType, 1, InfoFor(e))
  }

  function InfoFor(e: Entry): WriteInfo {
    match e.resource
    case BufferResource(buffer, size) => BufferInfo(buffer, 0, size)
    case TextureResource(view, sampler) => ImageInfo(ShaderReadOnlyOptimal, view, sampler)
    case NoResource => BufferInfo(Null, 0, 0)
  }

  /** A write targets its set and key, covers one descriptor of the stored
      type, and points at the whole buffer or at the texture as a
      shader-readable image. */
  lemma WriteDescribesEntry(dst: Handle, key: nat, e: Entry)
    requires Supported(e) && EntryWellTyped(e)
    ensures var w := WriteFor(dst, key, e);
            && w.dstSet == dst && w.dstBinding == key && w.count == 1
            && w.descriptorType == e.layout.descriptorType
            && (e.layout.descriptorType == UniformBuffer ==>
                  w.info == BufferInfo(e.resource.buffer, 0, e.resource.size))
            && (e.layout.descriptorType == CombinedImageSampler ==>
                  w.info == ImageInfo(ShaderReadOnlyOptimal, e.resource.view, e.resource.sampler))
  {
  }

  /** Every key listed is bound to an entry the set builder can describe. */
  predicate Describable(table: map<nat, Entry>, keys: seq<nat>) {
    forall i :: 0 <= i < |keys| ==> keys[i] in table && Supported(table[keys[i]]) && EntryWellTyped(table[keys[i]])
  }

  /** A table whose entries are all supported and well typed is described
      in full by any listing of its keys. */
  lemma KeysDescribable(table: map<nat, Entry>, order: seq<nat>)
    requires AllSupported(table) && WellTyped(table) && ListsKeys(order, table)
    ensures Describable(table, order)
  {
  }

  /** What `compile` needs of a material's state: every entry's resource is
      of the kind its type names, and both iteration orders list their
      map's keys. */
  predicate Buildable(table: map<nat, Entry>, order: seq<nat>,
                      shaders: map<ShaderStage, Shader>, stageOrder: seq<ShaderStage>) {
    WellTyped(table) && ListsKeys(order, table) && ListsKeys(stageOrder, shaders)
  }

  /** `resources_[k]`: the entry bound at `k`, or a value-initialised one. */
  function Lookup(table: map<nat, Entry>, k: nat): (e: Entry)
    ensures k in table ==> e == table[k]
    ensures k !in table ==> e == DefaultEntry
  {
    if k in table then table[k] else DefaultEntry
  }

  /** The writes for the entries at `keys`, in that order. */
  function SetWrites(dst: Handle, table: map<nat, Entry>, keys: seq<nat>): (r: seq<Call>)
    ensures |r| == |keys|
  {
    if keys == [] then []
    else
      var last := keys[|keys| - 1];
      SetWrites(dst, table, keys[..|keys| - 1]) + [UpdateDescriptorSet(WriteFor(dst, last, Lookup(table, last)))]
  }

  /** The `i`-th write describes the entry at the `i`-th key. */
  lemma {:induction false} SetWritesAt(dst: Handle, table: map<nat, Entry>, keys: seq<nat>, i: nat)
    requires i < |keys|
    ensures SetWrites(dst, table, keys)[i] == UpdateDescriptorSet(WriteFor(dst, keys[i], Lookup(table, keys[i])))
  {
    if i < |keys| - 1 {
      assert keys[..|keys| - 1][i] == keys[i];
      SetWritesAt(dst, table, keys[..|keys| - 1], i);
    }
  }

  /** The position in `keys` of the first entry of a type the builder does
      not write, or `|keys|` when there is none. */
  function FirstUnsupported(table: map<nat, Entry>, keys: seq<nat>): (i: nat)
    requires forall j :: 0 <= j < |keys| ==> keys[j] in table
    ensures i <= |keys|
    ensures forall j :: 0 <= j < i ==> Supported(table[keys[j]])
    ensures i < |keys| ==> !Supported(table[keys[i]])
  {
    if keys == [] then 0
    else if !Supported(table[keys[0]]) then 0
    else 1 + FirstUnsupported(table, keys[1..])
  }

  /** The first unsupported entry is the one the scan stops at. */
  lemma {:induction false} FirstUnsupportedAt(table: map<nat, Entry>, keys: seq<nat>, j: nat)
    requires forall i :: 0 <= i < |keys| ==> keys[i] in table
    requires j <= |keys| && forall i :: 0 <= i < j ==> Supported(table[keys[i]])
    requires j < |keys| ==> !Supported(table[keys[j]])
    ensures FirstUnsupported(table, keys) == j
  {
    if j > 0 {
      FirstUnsupportedAt(table, keys[1..], j - 1);
    }
  }

  /** The calls that fill the descriptor set of one frame: its allocation,
      then one write per listed key. */
  function FrameSetCalls(pool: Handle, layout: Handle, table: map<nat, Entry>, keys: seq<nat>, dst: Handle): (r: seq<Call>)
    ensures |r| == |keys| + 1
  {
    [AllocateDescriptorSet(pool, layout)] + SetWrites(dst, table, keys)
  }

  /** A frame's calls as a block of the log: the set that the block's
      allocation creates is the handle of the position the block starts at. */
  function FrameBlock(pool: Handle, layout: Handle, table: map<nat, Entry>, keys: seq<nat>): nat -> seq<Call> {
    (p: nat) => FrameSetCalls(pool, layout, table, keys, Handle(p))
  }

  /** The calls that fill the sets of the first `count` frames when the log
      held `base` calls before the first allocation. */
  function SetsCalls(pool: Handle, layout: Handle, table: map<nat, Entry>, keys: seq<nat>, base: nat, count: nat): seq<Call> {
    Concat(FrameBlock(pool, layout, table, keys), base, count)
  }

  /** The sets those calls allocate, in frame order. */
  function SetHandles(pool: Handle, layout: Handle, table: map<nat, Entry>, keys: seq<nat>, base: nat, count: nat): seq<Handle> {
    Handles(Starts(FrameBlock(pool, layout, table, keys), base, count))
  }

  function Handles(positions: seq<nat>): (r: seq<Handle>)
    ensures |r| == |positions|
    ensures forall i :: 0 <= i < |r| ==> r[i] == Handle(positions[i])
  {
    seq(|positions|, i requires 0 <= i < |positions| => Handle(positions[i]))
  }

  /** Each frame takes one allocation and one write per key, so the
      calls for `count` frames number `count * (|keys| + 1)`. */
  lemma SetsCallsLength(pool: Handle, layout: Handle, table: map<nat, Entry>, keys: seq<nat>, base: nat, count: nat)
    ensures |SetsCalls(pool, layout, table, keys, base, count)| == count * (|keys| + 1)
  {
    UniformLength(FrameBlock(pool, layout, table, keys), base, count, |keys| + 1);
  }

  /** The set of every frame is the object that frame's allocation creates:
      it is allocated from the pool with the layout, and the allocation is
      followed by exactly one write per key, in order, aimed at that set. */
  lemma {:induction false} SetsCallsShape(pool: Handle, layout: Handle, table: map<nat, Entry>, keys: seq<nat>, base: nat, count: nat, f: nat)
    requires Describable(table, keys) && f < count
    ensures var calls := SetsCalls(pool, layout, table, keys, base, count);
            var at := |SetsCalls(pool, layout, table, keys, base, f)|;
            && SetHandles(pool, layout, table, keys, base, count)[f] == Handle(base + at)
            && at + |keys| < |calls|
            && calls[at] == AllocateDescriptorSet(pool, layout)
            && forall j :: 0 <= j < |keys| ==>
                 calls[at + 1 + j] == UpdateDescriptorSet(WriteFor(Handle(base + at), keys[j], table[keys[j]]))
  {
    SetHandleAt(pool, layout, table, keys, base, count, f);
    FrameCallsAt(pool, layout, table, keys, base, count, f);
  }

  /** The set of frame `f` is the handle of the position its block starts at. */
  lemma {:induction false} SetHandleAt(pool: Handle, layout: Handle, table: map<nat, Entry>, keys: seq<nat>, base: nat, count: nat, f: nat)
    requires f < count
    ensures SetHandles(pool, layout, table, keys, base, count)[f] == Handle(base + |SetsCalls(pool, layout, table, keys, base, f)|)
  {
    StartsAt(FrameBlock(pool, layout, table, keys), base, count, f);
  }

  /** The calls of frame `f` sit in the log where its block starts. */
  lemma {:induction false} FrameCallsAt(pool: Handle, layout: Handle, table: map<nat, Entry>, keys: seq<nat>, base: nat, count: nat, f: nat)
    requires Describable(table, keys) && f < count
    ensures var calls := SetsCalls(pool, layout, table, keys, base, count);
            var at := |SetsCalls(pool, layout, table, keys, base, f)|;
            && at + |keys| < |calls|
            && calls[at] == AllocateDescriptorSet(pool, layout)
            && forall j :: 0 <= j < |keys| ==>
                 calls[at + 1 + j] == UpdateDescriptorSet(WriteFor(Handle(base + at), keys[j], table[keys[j]]))
  {
    var block := FrameBlock(pool, layout, table, keys);
    var at := |Concat(block, base, f)|;
    BlockAt(block, base, count, f);
    FrameElements(Concat(block, base, count), at, block(base + at), pool, layout, table, keys, Handle(base + at));
  }

  /** Calls that hold one frame's calls from position `at` on hold its
      allocation there and its writes after it. */
  lemma {:induction false} FrameElements(calls: seq<Call>, at: nat, frame: seq<Call>,
                                         pool: Handle, layout: Handle, table: map<nat, Entry>, keys: seq<nat>, dst: Handle)
    requires Describable(table, keys) && frame == FrameSetCalls(pool, layout, table, keys, dst)
    requires at + |frame| <= |calls| && forall n :: 0 <= n < |frame| ==> calls[at + n] == frame[n]
    ensures calls[at] == AllocateDescriptorSet(pool, layout)
    ensures forall j :: 0 <= j < |keys| ==> calls[at + 1 + j] == UpdateDescriptorSet(WriteFor(dst, keys[j], table[keys[j]]))
  {
    assert calls[at + 0] == frame[0];
    forall j | 0 <= j < |keys|
      ensures calls[at + 1 + j] == UpdateDescriptorSet(WriteFor(dst, keys[j], table[keys[j]]))
    {
      SetWritesAt(dst, table, keys, j);
      assert calls[at + (1 + j)] == frame[1 + j];
    }
  }

  /** One more frame: its calls follow, and its set is the handle of its
      allocation. */
  lemma FrameStep(pool: Handle, layout: Handle, table: map<nat, Entry>, keys: seq<nat>, base: nat, f: nat,
                  start: seq<Call>, before: seq<Call>, descSets: seq<Handle>)
    requires |start| == base && before == start + SetsCalls(pool, layout, table, keys, base, f)
    requires descSets == SetHandles(pool, layout, table, keys, base, f)
    ensures before + FrameSetCalls(pool, layout, table, keys, Handle(|before|))
            == start + SetsCalls(pool, layout, table, keys, base, f + 1)
    ensures descSets + [Handle(|before|)] == SetHandles(pool, layout, table, keys, base, f + 1)
  {
    var block := FrameBlock(pool, layout, table, keys);
    ConcatStep(block, base, f, start, before);
    assert block(|before|) == FrameSetCalls(pool, layout, table, keys, Handle(|before|));
    var starts := Starts(block, base, f);
    assert Handles(starts + [|before|]) == Handles(starts) + [Handle(|before|)];
  }

  /** The stage create-infos of a pipeline built from `shaders`, visited
      in the map's iteration order `order`. */
  function StageInfos(shaders: map<ShaderStage, Shader>, order: seq<ShaderStage>): (r: seq<StageInfo>)
    requires forall i :: 0 <= i < |order| ==> order[i] in shaders
    ensures |r| == |order|
  {
    seq(|order|, i requires 0 <= i < |order| => StageInfo(order[i], shaders[order[i]].shaderModule, "main"))
  }

  /** One stage per stored shader, each with its module and entry point
      `main`, in the map's iteration order, and no stage twice. */
  lemma StagesOnePerShader(shaders: map<ShaderStage, Shader>, order: seq<ShaderStage>)
    requires ListsKeys(order, shaders)
    ensures var infos := StageInfos(shaders, order);
            && |infos| == |shaders|
            && (forall i :: 0 <= i < |infos| ==>
                  infos[i].stage == order[i] && infos[i].entry == "main" &&
                  infos[i].shaderModule == shaders[order[i]].shaderModule)
            && (forall s :: s in shaders ==> exists i :: 0 <= i < |infos| && infos[i].stage == s)
            && (forall i, j :: 0 <= i < j < |infos| ==> infos[i].stage != infos[j].stage)
  {
    ListingLength(order, shaders);
    var infos := StageInfos(shaders, order);
    forall s | s in shaders ensures exists i :: 0 <= i < |infos| && infos[i].stage == s {
      var i :| 0 <= i < |order| && order[i] == s;
      assert infos[i].stage == s;
    }
  }

  /** Vertex and fragment shaders stored: the stages are those two, in the
      order the map lists them. */
  lemma TwoStagesEitherOrder(shaders: map<ShaderStage, Shader>, order: seq<ShaderStage>)
    requires ListsKeys(order, shaders) && Vertex in shaders && Fragment in shaders
    ensures order == [Vertex, Fragment] || order == [Fragment, Vertex]
    ensures |StageInfos(shaders, order)| == 2
  {
    ListingLength(order, shaders);
    assert shaders.Keys == {Vertex, Fragment} by {
      forall s | s in shaders.Keys ensures s in {Vertex, Fragment} {
        match s { case Vertex => case Fragment => }
      }
    }
    assert |order| == 2;
    assert order[0] != order[1];
    match order[0] {
      case Vertex => match order[1] { case Fragment => case Vertex => }
      case Fragment => match order[1] { case Vertex => case Fragment => }
    }
  }

  /** A getter that inserts: reading a binding that was never set leaves a
      value-initialised entry in the table, and that entry's type
      (`SAMPLER`) is one the set builder rejects. */
  lemma DefaultEntryIsRejected(table: map<nat, Entry>, binding: nat)
    requires binding !in table
    ensures !AllSupported(table[binding := DefaultEntry])
    ensures WellTyped(table) ==> WellTyped(table[binding := DefaultEntry])
  {
    assert !Supported(table[binding := DefaultEntry][binding]);
  }

  /** Every table whose entries are all of supported types and well typed
      stays so under a binding of a buffer as a uniform buffer or of a
      texture as a combined image sampler. */
  lemma BindingKeepsBuildable(table: map<nat, Entry>, binding: nat, e: Entry)
    requires AllSupported(table) && WellTyped(table)
    requires Supported(e) && EntryWellTyped(e)
    ensures AllSupported(table[binding := e]) && WellTyped(table[binding := e])
  {
  }

  class Material {
    var isCompiled: bool
    var shaders: map<ShaderStage, Shader>
    var stageOrder: seq<ShaderStage>
    var resources: map<nat, Entry>
    var order: seq<nat>
    var descLayout: Handle
    var descSets: seq<Handle>
    var pipelineLayout: Handle
    var pipeline: Handle

    var inputAsm: InputAssembly
    var viewport: ViewportState
    var rasterizer: Rasterizer
    var multisampling: Multisample
    var colorBlending: ColorBlend
    var blendAttachments: seq<BlendAttachment>
    var dynamicStates: seq<DynamicState>

    /** Each map's iteration order lists its keys once. */
    predicate Valid()
      reads this
    {
      ListsKeys(order, resources) && ListsKeys(stageOrder, shaders)
    }

    /** The fixed-function state that `setDefault` leaves. */
    predicate HasDefaultConfig()
      reads this
    {
      && inputAsm == DefaultInputAssembly
      && viewport == DefaultViewport
      && rasterizer == DefaultRasterizer(Clockwise)
      && multisampling == DefaultMultisample
      && colorBlending == DefaultColorBlend(0)
      && blendAttachments == DefaultBlendAttachments
      && dynamicStates == DefaultDynamicStates
    }

    /** A new material: dirty, with no shaders, no bindings, null handles and
        the default fixed-function state. */
    constructor ()
      ensures !isCompiled && shaders == map[] && resources == map[]
      ensures order == [] && stageOrder == [] && Valid()
      ensures descLayout == Null && pipelineLayout == Null && pipeline == Null && descSets == []
      ensures HasDefaultConfig()
    {
      isCompiled := false;
      shaders := map[];
      stageOrder := [];
      resources := map[];
      order := [];
      descLayout := Null;
      descSets := [];
      pipelineLayout := Null;
      pipeline := Null;
      new;
      SetDefault();
    }

    /** `setDefault`: triangle lists, one viewport and scissor, filled
        polygons culled at the back with clockwise front faces, one sample,
        one RGBA attachment with blending off, logic op COPY disabled, zero
        blend constants, and a dynamic viewport and scissor. */
    method SetDefault()
      modifies this`inputAsm, this`viewport, this`rasterizer, this`multisampling,
               this`colorBlending, this`blendAttachments, this`dynamicStates
      ensures HasDefaultConfig()
      ensures rasterizer.frontFace == Clockwise && rasterizer.cullMode == CullBack
      ensures |blendAttachments| == 1 && blendAttachments[0].writeMask == {R, G, B, A}
      ensures !blendAttachments[0].blendEnable
      ensures dynamicStates == [DynamicViewport, DynamicScissor]
    {
      inputAsm := DefaultInputAssembly;
      viewport := DefaultViewport;
      rasterizer := DefaultRasterizer(Clockwise);
      multisampling := DefaultMultisample;
      blendAttachments := DefaultBlendAttachments;
      colorBlending := DefaultColorBlend(0);
      dynamicStates := DefaultDynamicStates;
    }

    method SetVertexShader(vert: Shader)
      requires Valid()
      modifies this`shaders, this`stageOrder, this`isCompiled
      ensures Valid()
      ensures shaders == old(shaders)[Vertex := vert]
      ensures !isCompiled
    {
      if Vertex !in shaders {
        stageOrder := stageOrder + [Vertex];
      }
      shaders := shaders[Vertex := vert];
      isCompiled := false;
    }

    method SetFragmentShader(frag: Shader)
      requires Valid()
      modifies this`shaders, this`stageOrder, this`isCompiled
      ensures Valid()
      ensures shaders == old(shaders)[Fragment := frag]
      ensures !isCompiled
    {
      if Fragment !in shaders {
        stageOrder := stageOrder + [Fragment];
      }
      shaders := shaders[Fragment := frag];
      isCompiled := false;
    }

    /** Binds a buffer at `binding`, replacing whatever was bound there. */
    method SetBuffer(binding: nat, buffer: Handle, size: nat, t: DescriptorType, stage: set<ShaderStage>)
      requires Valid()
      modifies this`resources, this`order, this`isCompiled
      ensures Valid()
      ensures resources == old(resources)[binding := BoundEntry(binding, t, stage, BufferResource(buffer, size))]
      ensures forall k :: k in old(resources) && k != binding ==> k in resources && resources[k] == old(resources)[k]
      ensures !isCompiled
    {
      ListBinding(binding);
      resources := resources[binding := Entry(LayoutBinding(binding, 1, t, stage), BufferResource(buffer, size))];
      isCompiled := false;
    }

    /** Binds a texture's view and sampler at `binding`, replacing whatever
        was bound there. */
    method SetTexture(binding: nat, view: Handle, sampler: Handle, t: DescriptorType, stage: set<ShaderStage>)
      requires Valid()
      modifies this`resources, this`order, this`isCompiled
      ensures Valid()
      ensures resources == old(resources)[binding := BoundEntry(binding, t, stage, TextureResource(view, sampler))]
      ensures forall k :: k in old(resources) && k != binding ==> k in resources && resources[k] == old(resources)[k]
      ensures !isCompiled
    {
      ListBinding(binding);
      resources := resources[binding := Entry(LayoutBinding(binding, 1, t, stage), TextureResource(view, sampler))];
      isCompiled := false;
    }

    /** The resource bound at `binding`; a binding never set is inserted as
        a value-initialised entry, and the material stays as clean or dirty
        as it was. */
    method GetBuffer(binding: nat) returns (r: Resource)
      requires Valid()
      modifies this`resources, this`order
      ensures Valid()
      ensures binding in old(resources) ==> r == old(resources)[binding].resource && resources == old(resources)
      ensures binding !in old(resources) ==> r == NoResource && resources == old(resources)[binding := DefaultEntry]
    {
      if binding !in resources {
        ListBinding(binding);
        resources := resources[binding := DefaultEntry];
      }
      r := resources[binding].resource;
    }

    /** The iteration order once `binding` is in the table: a new key takes
        a place of its own, here the last. */
    method ListBinding(binding: nat)
      requires ListsKeys(order, resources)
      modifies this`order
      ensures ListsKeys(order, resources[binding := DefaultEntry])
      ensures binding in old(resources) ==> order == old(order)
    {
      if binding !in resources {
        order := order + [binding];
      }
    }

    /** The layout bindings of the table, one per bound number in ascending
        order, as one `vkCreateDescriptorSetLayout`. This is the intended
        layout: on a table with a gap, the loop as written writes past the
        end of its vector (`BindingTable.BuildBySlotAsWritten`). */
    method BuildDescLayout(device: Device)
      modifies this`descLayout, device
      ensures device.calls == old(device.calls) + [CreateDescriptorSetLayout(LayoutBindings(resources))]
      ensures descLayout == Handle(|old(device.calls)|)
    {
      var keys := Keys(resources);
      var bindings: seq<LayoutBinding> := [];
      for i := 0 to |keys|
        invariant |bindings| == i
        invariant forall j :: 0 <= j < i ==> bindings[j] == resources[keys[j]].layout
      {
        bindings := bindings + [resources[keys[i]].layout];
      }
      assert bindings == LayoutBindings(resources);
      descLayout := device.Issue(CreateDescriptorSetLayout(bindings));
    }

    /** One descriptor set per frame, allocated from `pool` with `layout`,
        and one write per bound entry into each. The first entry of an
        unsupported type stops the build in the first frame, after the
        allocation and the writes before it. */
    method BuildDescSets(device: Device, pool: Handle, layout: Handle, frames: nat) returns (r: Result<(), BuildError>)
      requires WellTyped(resources) && ListsKeys(order, resources) && frames > 0
      modifies this`descSets, device
      ensures r.Ok? <==> AllSupported(resources)
      ensures r.Ok? ==>
                && device.calls == old(device.calls) + SetsCalls(pool, layout, resources, order, |old(device.calls)|, frames)
                && descSets == SetHandles(pool, layout, resources, order, |old(device.calls)|, frames)
      ensures r.Err? ==>
                var j := FirstUnsupported(resources, order);
                && j < |order|
                && r == Err(UnsupportedDescriptorType(resources[order[j]].layout.descriptorType))
                && device.calls == old(device.calls) + [AllocateDescriptorSet(pool, layout)]
                                   + SetWrites(Handle(|old(device.calls)|), resources, order[..j])
    {
      r := Ok(());
      var base := |device.calls|;
      var keys := order;
      descSets := [];
      for f := 0 to frames
        invariant device.calls == old(device.calls) + SetsCalls(pool, layout, resources, keys, base, f)
        invariant descSets == SetHandles(pool, layout, resources, keys, base, f)
        invariant f > 0 ==> FirstUnsupported(resources, keys) == |keys| && AllSupported(resources)
        invariant r == Ok(())
      {
        ghost var before := device.calls;
        var dst, failed := FillSet(device, pool, layout, keys);
        if failed.Some? {
          ghost var j := FirstUnsupported(resources, keys);
          assert f == 0 && keys[j] in resources && !Supported(resources[keys[j]]);
          assert SetsCalls(pool, layout, resources, keys, base, 0) == [];
          return Err(UnsupportedDescriptorType(failed.value));
        }
        if f == 0 {
          AllSupportedFromOrder(resources, keys);
        }
        FrameStep(pool, layout, resources, keys, base, f, old(device.calls), before, descSets);
        descSets := descSets + [dst];
      }
    }

    /** One round of the frame loop: allocates a set and writes the entries
        at `keys` into it, stopping at the first of an unsupported type,
        whose type it returns. */
    method FillSet(device: Device, pool: Handle, layout: Handle, keys: seq<nat>) returns (dst: Handle, failed: Option<DescriptorType>)
      requires forall i :: 0 <= i < |keys| ==> keys[i] in resources && EntryWellTyped(resources[keys[i]])
      modifies device
      ensures var j := FirstUnsupported(resources, keys);
              && dst == Handle(|old(device.calls)|)
              && device.calls == old(device.calls) + [AllocateDescriptorSet(pool, layout)] + SetWrites(dst, resources, keys[..j])
              && (failed.Some? <==> j < |keys|)
              && (j < |keys| ==> failed == Some(resources[keys[j]].layout.descriptorType))
      ensures failed.None? ==> device.calls == old(device.calls) + FrameSetCalls(pool, layout, resources, keys, dst)
    {
      ghost var before := device.calls;
      dst := device.Issue(AllocateDescriptorSet(pool, layout));
      for j := 0 to |keys|
        invariant forall i :: 0 <= i < j ==> Supported(resources[keys[i]])
        invariant device.calls == before + [AllocateDescriptorSet(pool, layout)] + SetWrites(dst, resources, keys[..j])
      {
        var e := resources[keys[j]];
        if !Supported(e) {
          FirstUnsupportedAt(resources, keys, j);
          return dst, Some(e.layout.descriptorType);
        }
        var w := WriteFor(dst, keys[j], e);
        var _ := device.Issue(UpdateDescriptorSet(w));
        assert keys[..j + 1][..j] == keys[..j];
      }
      assert keys[..|keys|] == keys;
      FirstUnsupportedAt(resources, keys, |keys|);
      assert device.calls == before + ([AllocateDescriptorSet(pool, layout)] + SetWrites(dst, resources, keys));
      failed := None;
    }

    /** One stage per stored shader, in stage order, each entered at `main`;
        the attachment count is the number of blend attachments; subpass 0;
        no depth-stencil state. */
    method BuildPipeline(device: Device, layout: Handle, renderPass: Handle)
      requires ListsKeys(stageOrder, shaders)
      modifies this`pipeline, this`colorBlending, device
      ensures colorBlending == old(colorBlending).(attachmentCount := |blendAttachments|)
      ensures device.calls == old(device.calls) + [CreateGraphicsPipeline(PipelineInfo(
                StageInfos(shaders, stageOrder), inputAsm, viewport, rasterizer, multisampling, None,
                colorBlending, blendAttachments, dynamicStates, layout, renderPass, 0))]
      ensures pipeline == Handle(|old(device.calls)|)
    {
      var stages: seq<StageInfo> := [];
      for i := 0 to |stageOrder|
        invariant stages == StageInfos(shaders, stageOrder)[..i]
      {
        stages := stages + [StageInfo(stageOrder[i], shaders[stageOrder[i]].shaderModule, "main")];
      }
      assert stages == StageInfos(shaders, stageOrder);
      colorBlending := colorBlending.(attachmentCount := |blendAttachments|);
      var info := PipelineInfo(stages, inputAsm, viewport, rasterizer, multisampling, None,
                               colorBlending, blendAttachments, dynamicStates, layout, renderPass, 0);
      pipeline := device.Issue(CreateGraphicsPipeline(info));
    }

    /** `compile`: the descriptor layout, then the per-frame sets, then a
        pipeline layout over the one descriptor layout, then the pipeline;
        a material whose table can be described ends clean. */
    method Compile(device: Device, renderPass: Handle, pool: Handle, frames: nat) returns (r: Result<(), BuildError>)
      requires Buildable(resources, order, shaders, stageOrder) && frames > 0
      modifies this`isCompiled, this`descLayout, this`descSets, this`pipelineLayout, this`pipeline, this`colorBlending, device
      ensures r.Ok? <==> AllSupported(resources)
      ensures r.Ok? ==>
                var base := |old(device.calls)|;
                var sets := SetsCalls(pool, descLayout, resources, order, base + 1, frames);
                && isCompiled
                && descLayout == Handle(base)
                && pipelineLayout == Handle(base + 1 + |sets|)
                && pipeline == Handle(base + 2 + |sets|)
                && descSets == SetHandles(pool, descLayout, resources, order, base + 1, frames)
                && device.calls == old(device.calls)
                     + [CreateDescriptorSetLayout(LayoutBindings(resources))]
                     + sets
                     + [CreatePipelineLayout([descLayout])]
                     + [CreateGraphicsPipeline(PipelineInfo(
                          StageInfos(shaders, stageOrder), inputAsm, viewport, rasterizer, multisampling, None,
                          colorBlending, blendAttachments, dynamicStates, pipelineLayout, renderPass, 0))]
      ensures r.Ok? ==>
                colorBlending == old(colorBlending).(attachmentCount := |blendAttachments|)
    {
      r := BuildDescriptors(device, pool, frames);
      if r.Err? {
        return;
      }
      BuildPipelineAndLayout(device, renderPass);
      isCompiled := true;
    }

    /** The second half of `compile`: a pipeline layout over the descriptor
        layout, then the pipeline over that layout. */
    method BuildPipelineAndLayout(device: Device, renderPass: Handle)
      requires ListsKeys(stageOrder, shaders)
      modifies this`pipelineLayout, this`pipeline, this`colorBlending, device
      ensures pipelineLayout == Handle(|old(device.calls)|) && pipeline == Handle(|old(device.calls)| + 1)
      ensures colorBlending == old(colorBlending).(attachmentCount := |blendAttachments|)
      ensures device.calls == old(device.calls)
                + [CreatePipelineLayout([descLayout])]
                + [CreateGraphicsPipeline(PipelineInfo(
                     StageInfos(shaders, stageOrder), inputAsm, viewport, rasterizer, multisampling, None,
                     colorBlending, blendAttachments, dynamicStates, pipelineLayout, renderPass, 0))]
    {
      BuildPipelineLayout(device, descLayout);
      BuildPipeline(device, pipelineLayout, renderPass);
    }

    /** The first half of `compile`: the descriptor layout, then the sets. */
    method BuildDescriptors(device: Device, pool: Handle, frames: nat) returns (r: Result<(), BuildError>)
      requires WellTyped(resources) && ListsKeys(order, resources) && frames > 0
      modifies this`descLayout, this`descSets, device
      ensures r.Ok? <==> AllSupported(resources)
      ensures descLayout == Handle(|old(device.calls)|)
      ensures r.Ok? ==>
                var base := |old(device.calls)|;
                && descSets == SetHandles(pool, descLayout, resources, order, base + 1, frames)
                && device.calls == old(device.calls)
                     + [CreateDescriptorSetLayout(LayoutBindings(resources))]
                     + SetsCalls(pool, descLayout, resources, order, base + 1, frames)
    {
      BuildDescLayout(device);
      r := BuildDescSets(device, pool, descLayout, frames);
    }

    /** A pipeline layout over exactly one descriptor-set layout. */
    method BuildPipelineLayout(device: Device, setLayout: Handle)
      modifies this`pipelineLayout, device
      ensures device.calls == old(device.calls) + [CreatePipelineLayout([setLayout])]
      ensures pipelineLayout == Handle(|old(device.calls)|)
    {
      pipelineLayout := device.Issue(CreatePipelineLayout([setLayout]));
    }
  }

  /** The loop found no unsupported entry in `keys`, so none of the table's
      entries is unsupported. */
  lemma AllSupportedFromOrder(table: map<nat, Entry>, keys: seq<nat>)
    requires ListsKeys(keys, table)
    requires forall i :: 0 <= i < |keys| ==> Supported(table[keys[i]])
    ensures FirstUnsupported(table, keys) == |keys| && AllSupported(table)
  {
    FirstUnsupportedAt(table, keys, |keys|);
  }
}
