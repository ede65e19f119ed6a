/** `GraphicsPipeline` (src/GraphicsPipeline.cpp): a pipeline with exactly a
    vertex and a fragment stage, the fixed-function state of its
    `setDefault`, and a warm-up that throws the old Vulkan objects away and
    builds new ones.

    Its descriptor-set layout is every stored shader's bindings put end to
    end. The file reads a per-shader binding list that src/Shader.cpp does
    not define, so a shader here carries its own list (`StageShader`). The
    shader table is an `unordered_map`, whose iteration order is an input
    (`order`) that lists each stored stage once. */
module GraphicsPipelines {
  import opened Wrappers
  import opened Vk
  import opened Ordered

  /** A shader as the pipeline reads it: its module and its bindings, in the
      order the shader lists them. */
  datatype StageShader = StageShader(shaderModule: Handle, bindings: seq<LayoutBinding>)

  /** The bindings of the shaders at `order`, end to end. */
  function StageBindings(shaders: map<ShaderStage, StageShader>, order: seq<ShaderStage>): seq<LayoutBinding>
    requires forall i :: 0 <= i < |order| ==> order[i] in shaders
  {
    if order == [] then []
    else StageBindings(shaders, order[..|order| - 1]) + shaders[order[|order| - 1]].bindings
  }

  /** The number of bindings the shaders at `order` list between them. */
  function BindingTotal(shaders: map<ShaderStage, StageShader>, order: seq<ShaderStage>): nat
    requires forall i :: 0 <= i < |order| ==> order[i] in shaders
  {
    if order == [] then 0
    else BindingTotal(shaders, order[1..]) + |shaders[order[0]].bindings|
  }

  /** The layout holds as many bindings as the shaders list in total. */
  lemma {:induction false} StageBindingsCount(shaders: map<ShaderStage, StageShader>, order: seq<ShaderStage>)
    requires forall i :: 0 <= i < |order| ==> order[i] in shaders
    ensures |StageBindings(shaders, order)| == BindingTotal(shaders, order)
    decreases |order|
  {
    if order != [] {
      var n := |order| - 1;
      StageBindingsCount(shaders, order[..n]);
      TotalSnoc(shaders, order);
    }
  }

  /** The total counted from the back equals the total counted from the
      front. */
  lemma {:induction false} TotalSnoc(shaders: map<ShaderStage, StageShader>, order: seq<ShaderStage>)
    requires forall i :: 0 <= i < |order| ==> order[i] in shaders
    requires order != []
    ensures BindingTotal(shaders, order)
         == BindingTotal(shaders, order[..|order| - 1]) + |shaders[order[|order| - 1]].bindings|
    decreases |order|
  {
    var n := |order| - 1;
    if n > 0 {
      TotalSnoc(shaders, order[1..]);
      assert order[1..][..n - 1] == order[..n][1..];
    }
  }

  /** Binding `j` of the `i`-th shader is in the layout. */
  lemma {:induction false} StageBindingsHasEvery(shaders: map<ShaderStage, StageShader>, order: seq<ShaderStage>, i: nat, j: nat)
    requires forall k :: 0 <= k < |order| ==> order[k] in shaders
    requires i < |order| && j < |shaders[order[i]].bindings|
    ensures shaders[order[i]].bindings[j] in StageBindings(shaders, order)
    decreases |order|
  {
    var n := |order| - 1;
    var prefix := StageBindings(shaders, order[..n]);
    var last := shaders[order[n]].bindings;
    assert StageBindings(shaders, order) == prefix + last;
    if i < n {
      assert order[..n][i] == order[i];
      StageBindingsHasEvery(shaders, order[..n], i, j);
    } else {
      assert last[j] == (prefix + last)[|prefix| + j];
    }
  }

  /** Every binding of the layout comes from one of the shaders. */
  lemma {:induction false} StageBindingsOnlyShaders(shaders: map<ShaderStage, StageShader>, order: seq<ShaderStage>, b: LayoutBinding)
    requires forall k :: 0 <= k < |order| ==> order[k] in shaders
    requires b in StageBindings(shaders, order)
    ensures exists i :: 0 <= i < |order| && b in shaders[order[i]].bindings
    decreases |order|
  {
    var n := |order| - 1;
    var prefix := StageBindings(shaders, order[..n]);
    if b in prefix {
      StageBindingsOnlyShaders(shaders, order[..n], b);
      var i :| 0 <= i < n && b in shaders[order[..n][i]].bindings;
      assert order[..n][i] == order[i];
    } else {
      assert b in shaders[order[n]].bindings;
    }
  }

  /** A vertex and a fragment shader visited in that order give the vertex
      shader's bindings followed by the fragment shader's. */
  lemma TwoStageBindings(vert: StageShader, frag: StageShader)
    ensures var shaders := map[Vertex := vert, Fragment := frag];
            StageBindings(shaders, [Vertex, Fragment]) == vert.bindings + frag.bindings
  {
    var shaders := map[Vertex := vert, Fragment := frag];
    assert [Vertex, Fragment][..1] == [Vertex];
    assert [Vertex][..0] == [];
    assert StageBindings(shaders, [Vertex]) == StageBindings(shaders, []) + vert.bindings;
  }

  class GraphicsPipeline {
    var shaders: map<ShaderStage, StageShader>
    var layout: Handle
    var pipeline: Handle
    var isWarmedUp: bool

    var inputAsm: InputAssembly
    var viewport: ViewportState
    var rasterizer: Rasterizer
    var multisampling: Multisample
    var colorBlending: ColorBlend
    var blendAttachments: seq<BlendAttachment>
    var dynamicStates: seq<DynamicState>

    /** The fixed-function state that `setDefault` leaves: counter-clockwise
        front faces, back faces culled, one attachment counted. */
    predicate HasDefaultConfig()
      reads this
    {
      && inputAsm == DefaultInputAssembly
      && viewport == DefaultViewport
      && rasterizer == DefaultRasterizer(CounterClockwise)
      && multisampling == DefaultMultisample
      && blendAttachments == DefaultBlendAttachments
      && colorBlending == DefaultColorBlend(|DefaultBlendAttachments|)
      && dynamicStates == DefaultDynamicStates
    }

    /** Null layout and pipeline, then `setDefault`. The warm-up flag is not
        initialised by the constructor, so nothing is promised about it. */
    constructor ()
      ensures shaders == map[] && layout == Null && pipeline == Null
      ensures HasDefaultConfig()
    {
      shaders := map[];
      layout := Null;
      pipeline := Null;
      new;
      SetDefault();
    }

    method SetDefault()
      modifies this`inputAsm, this`viewport, this`rasterizer, this`multisampling,
               this`colorBlending, this`blendAttachments, this`dynamicStates
      ensures HasDefaultConfig()
      ensures rasterizer.frontFace == CounterClockwise && rasterizer.cullMode == CullBack
      ensures |blendAttachments| == 1 && colorBlending.attachmentCount == 1
      ensures dynamicStates == [DynamicViewport, DynamicScissor]
    {
      inputAsm := DefaultInputAssembly;
      viewport := DefaultViewport;
      rasterizer := DefaultRasterizer(CounterClockwise);
      multisampling := DefaultMultisample;
      blendAttachments := DefaultBlendAttachments;
      colorBlending := DefaultColorBlend(|blendAttachments|);
      dynamicStates := [DynamicViewport, DynamicScissor];
    }

    /** Replaces the vertex stage only, and marks the pipeline cold. */
    method SetVertexShader(vert: StageShader)
      modifies this`shaders, this`isWarmedUp
      ensures shaders == old(shaders)[Vertex := vert] && !isWarmedUp
      ensures Fragment in old(shaders) ==> Fragment in shaders && shaders[Fragment] == old(shaders)[Fragment]
    {
      shaders := shaders[Vertex := vert];
      isWarmedUp := false;
    }

    /** Replaces the fragment stage only, and marks the pipeline cold. */
    method SetFragmentShader(frag: StageShader)
      modifies this`shaders, this`isWarmedUp
      ensures shaders == old(shaders)[Fragment := frag] && !isWarmedUp
      ensures Vertex in old(shaders) ==> Vertex in shaders && shaders[Vertex] == old(shaders)[Vertex]
    {
      shaders := shaders[Fragment := frag];
      isWarmedUp := false;
    }

    /** The two stages of the pipeline: vertex then fragment, both entered
        at `main`. */
    function Stages(): (r: seq<StageInfo>)
      requires Vertex in shaders && Fragment in shaders
      reads this
      ensures |r| == 2 && r[0].stage == Vertex && r[1].stage == Fragment
      ensures forall i :: 0 <= i < 2 ==> r[i].entry == "main" && r[i].shaderModule == shaders[r[i].stage].shaderModule
    {
      [StageInfo(Vertex, shaders[Vertex].shaderModule, "main"), StageInfo(Fragment, shaders[Fragment].shaderModule, "main")]
    }

    /** `warmUp`: wait for the device, destroy the old layout and pipeline
        and forget them, then build the descriptor-set layout, a pipeline
        layout over it and the pipeline; the pipeline is warm at the end. */
    method WarmUp(device: Device, renderPass: Handle, order: seq<ShaderStage>)
      requires Vertex in shaders && Fragment in shaders && ListsKeys(order, shaders)
      modifies this`layout, this`pipeline, this`isWarmedUp, device
      ensures isWarmedUp
      ensures var base := |old(device.calls)|;
              && layout == Handle(base + 4)
              && pipeline == Handle(base + 5)
              && device.calls == old(device.calls) + [
                   DeviceWaitIdle,
                   DestroyPipelineLayout(old(layout)),
                   DestroyPipeline(old(pipeline)),
                   CreateDescriptorSetLayout(StageBindings(shaders, order)),
                   CreatePipelineLayout([Handle(base + 3)]),
                   CreateGraphicsPipeline(PipelineInfo(
                     Stages(), inputAsm, viewport, rasterizer, multisampling, None,
                     colorBlending, blendAttachments, dynamicStates, Handle(base + 4), renderPass, 0))]
    {
      Discard(device);
      var descLayout := CreateDescLayout(device, order);
      layout := CreateLayout(device, descLayout);

      var vertInfo := StageInfo(Vertex, shaders[Vertex].shaderModule, "main");
      var fragInfo := StageInfo(Fragment, shaders[Fragment].shaderModule, "main");
      var info := PipelineInfo([vertInfo, fragInfo], inputAsm, viewport, rasterizer, multisampling, None,
                               colorBlending, blendAttachments, dynamicStates, layout, renderPass, 0);
      pipeline := device.Issue(CreateGraphicsPipeline(info));
      isWarmedUp := true;
    }

    /** The first half of `warmUp`: wait for the device, destroy the layout
        and the pipeline, and set both handles to null. */
    method Discard(device: Device)
      modifies this`layout, this`pipeline, device
      ensures layout == Null && pipeline == Null
      ensures device.calls == old(device.calls) + [DeviceWaitIdle, DestroyPipelineLayout(old(layout)), DestroyPipeline(old(pipeline))]
    {
      var _ := device.Issue(DeviceWaitIdle);
      var _ := device.Issue(DestroyPipelineLayout(layout));
      var _ := device.Issue(DestroyPipeline(pipeline));
      layout := Null;
      pipeline := Null;
    }

    /** `createDescLayout`: every stored shader's bindings, shader by shader
        in iteration order, in one `vkCreateDescriptorSetLayout`. */
    method CreateDescLayout(device: Device, order: seq<ShaderStage>) returns (descLayout: Handle)
      requires ListsKeys(order, shaders)
      modifies device
      ensures device.calls == old(device.calls) + [CreateDescriptorSetLayout(StageBindings(shaders, order))]
      ensures descLayout == Handle(|old(device.calls)|)
    {
      var bindings: seq<LayoutBinding> := [];
      for i := 0 to |order|
        invariant bindings == StageBindings(shaders, order[..i])
      {
        var own := shaders[order[i]].bindings;
        ghost var done := bindings;
        for j := 0 to |own|
          invariant bindings == done + own[..j]
        {
          bindings := bindings + [own[j]];
          assert own[..j + 1] == own[..j] + [own[j]];
        }
        assert own[..|own|] == own;
        assert order[..i + 1][..i] == order[..i];
      }
      assert order[..|order|] == order;
      descLayout := device.Issue(CreateDescriptorSetLayout(bindings));
    }

    /** `createLayout`: a pipeline layout over exactly one set layout. */
    method CreateLayout(device: Device, descLayout: Handle) returns (pipelineLayout: Handle)
      modifies device
      ensures device.calls == old(device.calls) + [CreatePipelineLayout([descLayout])]
      ensures pipelineLayout == Handle(|old(device.calls)|)
    {
      pipelineLayout := device.Issue(CreatePipelineLayout([descLayout]));
    }
  }
}
