/** `PipelineBuilder` (src/PipelineBuilder.cpp and the inline setters of
    include/kk_renderer/PipelineBuilder.h): a chainable holder of pipeline
    state that emits one `vkCreateGraphicsPipelines` with exactly a vertex
    and a fragment stage.

    The shaders are kept as the modules of the shared pointers `vert_` and
    `frag_`; an empty pointer is `None`. The other members are plain C
    structs that only `setDefault` initialises. */
module PipelineBuilders {
  import opened Wrappers
  import opened Vk

  class PipelineBuilder {
    var vert: Option<Handle>
    var frag: Option<Handle>
    var inputAsm: InputAssembly
    var viewport: ViewportState
    var rasterizer: Rasterizer
    var multisampling: Multisample
    var depthStencil: DepthStencil
    var colorBlending: ColorBlend
    var blendAttachments: seq<BlendAttachment>
    var dynamicStates: seq<DynamicState>

    /** The state that `setDefault` leaves: clockwise front faces, back
        faces culled, depth tested and written with `LESS`, one RGBA
        attachment without blending, viewport and scissor dynamic. The
        attachment count is filled in by `build`. */
    predicate HasDefaultConfig()
      reads this
    {
      && inputAsm == DefaultInputAssembly
      && viewport == DefaultViewport
      && rasterizer == DefaultRasterizer(Clockwise)
      && multisampling == DefaultMultisample
      && depthStencil == DepthStencil(true, true, CompareLess)
      && blendAttachments == DefaultBlendAttachments
      && colorBlending == DefaultColorBlend(0)
      && dynamicStates == DefaultDynamicStates
    }

    /** A new builder holds no shaders. */
    constructor ()
      ensures vert == None && frag == None
    {
      vert := None;
      frag := None;
    }

    /** The create-info `build` emits: the two stages, vertex then fragment,
        both entered at `main`; the depth-stencil state; the caller's layout
        and render pass; subpass 0. */
    function Info(layout: Handle, renderPass: Handle): (info: PipelineInfo)
      requires vert.Some? && frag.Some?
      reads this
      ensures |info.stages| == 2
      ensures info.stages[0] == StageInfo(Vertex, vert.value, "main")
      ensures info.stages[1] == StageInfo(Fragment, frag.value, "main")
      ensures info.layout == layout && info.renderPass == renderPass && info.subpass == 0
      ensures info.depthStencil == Some(depthStencil)
      ensures info.colorBlend == colorBlending && info.blendAttachments == blendAttachments
      ensures info.rasterizer == rasterizer && info.dynamicStates == dynamicStates
    {
      PipelineInfo([StageInfo(Vertex, vert.value, "main"), StageInfo(Fragment, frag.value, "main")],
                   inputAsm, viewport, rasterizer, multisampling, Some(depthStencil),
                   colorBlending, blendAttachments, dynamicStates, layout, renderPass, 0)
    }

    /** `build`: counts the blend attachments into the colour-blend state,
        then creates the pipeline. The `subpass` argument is not used: the
        pipeline is always for subpass 0. */
    method Build(device: Device, subpass: Uint32, layout: Handle, renderPass: Handle) returns (pipeline: Handle)
      requires vert.Some? && frag.Some?
      modifies this`colorBlending, device
      ensures colorBlending == old(colorBlending).(attachmentCount := |blendAttachments|)
      ensures device.calls == old(device.calls) + [CreateGraphicsPipeline(Info(layout, renderPass))]
      ensures pipeline == Handle(|old(device.calls)|)
    {
      var stages := [StageInfo(Vertex, vert.value, "main"), StageInfo(Fragment, frag.value, "main")];
      colorBlending := colorBlending.(attachmentCount := |blendAttachments|);
      var info := PipelineInfo(stages, inputAsm, viewport, rasterizer, multisampling, Some(depthStencil),
                               colorBlending, blendAttachments, dynamicStates, layout, renderPass, 0);
      pipeline := device.Issue(CreateGraphicsPipeline(info));
    }

    /** `setDefault`: overwrites every fixed-function member, including an
        earlier `setFrontFace`, and returns the same builder; the shaders
        are left as they were. */
    method SetDefault() returns (self: PipelineBuilder)
      modifies this`inputAsm, this`viewport, this`rasterizer, this`multisampling, this`depthStencil,
               this`colorBlending, this`blendAttachments, this`dynamicStates
      ensures self == this && HasDefaultConfig()
      ensures rasterizer.frontFace == Clockwise && rasterizer.cullMode == CullBack
      ensures depthStencil.depthTest && depthStencil.depthWrite && depthStencil.compareOp == CompareLess
      ensures dynamicStates == [DynamicViewport, DynamicScissor]
      ensures |blendAttachments| == 1 && blendAttachments[0].writeMask == {R, G, B, A}
      ensures !blendAttachments[0].blendEnable
    {
      inputAsm := DefaultInputAssembly;
      viewport := DefaultViewport;
      rasterizer := DefaultRasterizer(Clockwise);
      multisampling := DefaultMultisample;
      depthStencil := DepthStencil(true, true, CompareLess);
      blendAttachments := DefaultBlendAttachments;
      colorBlending := DefaultColorBlend(0);
      dynamicStates := [DynamicViewport, DynamicScissor];
      self := this;
    }

    /** Stores the vertex shader and returns the same builder. */
    method SetVertexShader(shader: Handle) returns (self: PipelineBuilder)
      modifies this`vert
      ensures self == this && vert == Some(shader)
    {
      vert := Some(shader);
      self := this;
    }

    /** Stores the fragment shader and returns the same builder. */
    method SetFragmentShader(shader: Handle) returns (self: PipelineBuilder)
      modifies this`frag
      ensures self == this && frag == Some(shader)
    {
      frag := Some(shader);
      self := this;
    }

    /** Sets the front face only and returns the same builder. */
    method SetFrontFace(front: FrontFace) returns (self: PipelineBuilder)
      modifies this`rasterizer
      ensures self == this && rasterizer == old(rasterizer).(frontFace := front)
    {
      rasterizer := rasterizer.(frontFace := front);
      self := this;
    }
  }

  /** A front face set before `setDefault` is lost; one set after it is
      kept, with the rest of the defaults. */
  method FrontFaceOrder(b: PipelineBuilder, front: FrontFace)
    modifies b
    ensures b.rasterizer == DefaultRasterizer(front)
    ensures b.depthStencil == DepthStencil(true, true, CompareLess)
    ensures b.dynamicStates == DefaultDynamicStates
    ensures b.vert == old(b.vert) && b.frag == old(b.frag)
  {
    var _ := b.SetFrontFace(front);
    var _ := b.SetDefault();
    assert b.rasterizer.frontFace == Clockwise;
    var _ := b.SetFrontFace(front);
  }

  /** The chain the renderer uses for its shadow pipeline:
      `setDefault().setVertexShader(v).setFragmentShader(f)
      .setFrontFace(CLOCKWISE).build(ctx, 0, layout, pass)`. The pipeline has
      the two given modules, clockwise front faces, depth testing with
      `LESS` and one counted attachment. */
  method ShadowPipelineChain(device: Device, v: Handle, f: Handle, layout: Handle, renderPass: Handle)
      returns (pipeline: Handle)
    modifies device
    ensures pipeline == Handle(|old(device.calls)|)
    ensures |device.calls| == |old(device.calls)| + 1
    ensures device.calls[|device.calls| - 1].CreateGraphicsPipeline?
    ensures var info := device.calls[|device.calls| - 1].info;
            && info.stages == [StageInfo(Vertex, v, "main"), StageInfo(Fragment, f, "main")]
            && info.rasterizer == DefaultRasterizer(Clockwise)
            && info.depthStencil == Some(DepthStencil(true, true, CompareLess))
            && info.colorBlend.attachmentCount == 1
            && info.dynamicStates == DefaultDynamicStates
            && info.layout == layout && info.renderPass == renderPass && info.subpass == 0
  {
    var builder := new PipelineBuilder();
    var b1 := builder.SetDefault();
    var b2 := b1.SetVertexShader(v);
    var b3 := b2.SetFragmentShader(f);
    var b4 := b3.SetFrontFace(Clockwise);
    pipeline := b4.Build(device, 0, layout, renderPass);
  }
}
