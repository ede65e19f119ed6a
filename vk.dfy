/** The Vulkan vocabulary the renderer's bookkeeping talks about. Every Vulkan
    object is an opaque handle; every driver call that the core issues is
    recorded, in order, in the call log of a `Device`, and the handle a call
    creates is the position of that call in the log. */
module Vk {
  import opened Wrappers

  /** `UINT32_MAX`, and the modulus of `uint32_t` arithmetic. */
  const Uint32Max: nat := 0xFFFF_FFFF
  const Uint32Modulus: nat := 0x1_0000_0000

  /** A `uint32_t` value. */
  type Uint32 = x: int | 0 <= x < 0x1_0000_0000

  /** `VK_NULL_HANDLE`, or the object created by the call at `index`. */
  datatype Handle = Null | Handle(index: nat)

  /** `VkResult`, reduced to the codes the core tells apart. */
  datatype VkResult = Success | SuboptimalKhr | ErrorOutOfDateKhr | OtherError(code: int)

  /** `VkDescriptorType`. `Sampler` (value 0) is what a value-initialised
      binding holds. */
  datatype DescriptorType = Sampler | CombinedImageSampler | UniformBuffer | OtherType(code: nat)

  /** The two shader stages the core uses; `VERTEX_BIT` (1) orders before
      `FRAGMENT_BIT` (16). */
  datatype ShaderStage = Vertex | Fragment

  function StageBit(s: ShaderStage): nat {
    match s
    case Vertex => 0x1
    case Fragment => 0x10
  }

  /** A `VkDescriptorSetLayoutBinding`; `stages` is the `stageFlags` mask. */
  datatype LayoutBinding = LayoutBinding(
    binding: nat, count: nat, descriptorType: DescriptorType, stages: set<ShaderStage>)

  /** What `operator[]` inserts for a binding number that was never bound. */
  const DefaultLayoutBinding := LayoutBinding(0, 0, Sampler, {})

  /** The object a binding table entry points at. */
  datatype Resource =
    | NoResource
    | BufferResource(buffer: Handle, size: nat)
    | TextureResource(view: Handle, sampler: Handle)

  /** One entry of a binding table: the layout binding and its resource. */
  datatype Entry = Entry(layout: LayoutBinding, resource: Resource)

  const DefaultEntry := Entry(DefaultLayoutBinding, NoResource)

  /** The entry that `setBuffer`/`setTexture`/`bindBuffer` store. It
      describes one descriptor, so it is never the value-initialised entry
      that reading an unbound number inserts. */
  function BoundEntry(binding: nat, t: DescriptorType, stage: set<ShaderStage>, res: Resource): (e: Entry)
    ensures e != DefaultEntry
  {
    Entry(LayoutBinding(binding, 1, t, stage), res)
  }

  datatype ImageLayout = ShaderReadOnlyOptimal

  datatype WriteInfo =
    | BufferInfo(buffer: Handle, offset: nat, range: nat)
    | ImageInfo(imageLayout: ImageLayout, view: Handle, sampler: Handle)

  /** A `VkWriteDescriptorSet` with its buffer or image info. */
  datatype DescriptorWrite = DescriptorWrite(
    dstSet: Handle, dstBinding: nat, descriptorType: DescriptorType, count: nat, info: WriteInfo)

  // Fixed-function pipeline state.
  datatype Topology = TriangleList
  datatype InputAssembly = InputAssembly(topology: Topology, primitiveRestart: bool)
  datatype ViewportState = ViewportState(viewportCount: nat, scissorCount: nat)
  datatype PolygonMode = Fill
  datatype CullMode = CullNone | CullFront | CullBack
  datatype FrontFace = CounterClockwise | Clockwise
  datatype Rasterizer = Rasterizer(
    depthClamp: bool, discard: bool, polygonMode: PolygonMode, lineWidth: real,
    cullMode: CullMode, frontFace: FrontFace, depthBias: bool)
  datatype Multisample = Multisample(sampleShading: bool, samples: nat)
  datatype CompareOp = CompareNever | CompareLess
  datatype DepthStencil = DepthStencil(depthTest: bool, depthWrite: bool, compareOp: CompareOp)
  datatype ColorComponent = R | G | B | A
  datatype BlendAttachment = BlendAttachment(writeMask: set<ColorComponent>, blendEnable: bool)
  datatype LogicOp = LogicClear | LogicCopy
  datatype ColorBlend = ColorBlend(
    logicOpEnable: bool, logicOp: LogicOp, attachmentCount: nat, constants: seq<real>)
  datatype DynamicState = DynamicViewport | DynamicScissor

  // The defaults that every `setDefault` of the core shares.
  const DefaultInputAssembly := InputAssembly(TriangleList, false)
  const DefaultViewport := ViewportState(1, 1)
  const DefaultMultisample := Multisample(false, 1)
  /** One RGBA attachment with blending off. */
  const DefaultBlendAttachments := [BlendAttachment({R, G, B, A}, false)]
  const DefaultDynamicStates := [DynamicViewport, DynamicScissor]

  function DefaultRasterizer(front: FrontFace): (r: Rasterizer)
    ensures r.cullMode == CullBack && r.frontFace == front && r.polygonMode == Fill
    ensures r.lineWidth == 1.0 && !r.depthClamp && !r.discard && !r.depthBias
  {
    Rasterizer(false, false, Fill, 1.0, CullBack, front, false)
  }

  /** The colour-blend state that `setDefault` leaves: the attachment count
      is only filled in when a pipeline is built. */
  function DefaultColorBlend(attachmentCount: nat): ColorBlend {
    ColorBlend(false, LogicCopy, attachmentCount, [0.0, 0.0, 0.0, 0.0])
  }

  /** A `VkPipelineShaderStageCreateInfo`. */
  datatype StageInfo = StageInfo(stage: ShaderStage, shaderModule: Handle, entry: string)

  /** A `VkGraphicsPipelineCreateInfo` with the states it points at. */
  datatype PipelineInfo = PipelineInfo(
    stages: seq<StageInfo>,
    inputAssembly: InputAssembly,
    viewport: ViewportState,
    rasterizer: Rasterizer,
    multisample: Multisample,
    depthStencil: Option<DepthStencil>,
    colorBlend: ColorBlend,
    blendAttachments: seq<BlendAttachment>,
    dynamicStates: seq<DynamicState>,
    layout: Handle,
    renderPass: Handle,
    subpass: nat)

  /** `VkSurfaceFormatKHR`. */
  datatype SurfaceFormat = SurfaceFormat(format: Uint32, colorSpace: Uint32)

  /** `VkExtent2D`. */
  datatype Extent2D = Extent2D(width: Uint32, height: Uint32)

  /** `imageSharingMode` with the queue families a concurrent image lists. */
  datatype SharingMode = Exclusive | Concurrent(families: seq<Uint32>)

  /** The fields of `VkSwapchainCreateInfoKHR` the core sets; image usage
      (colour attachment), composite alpha (opaque) and clipping (on) are
      fixed and left implicit. */
  datatype SwapchainInfo = SwapchainInfo(
    surface: Handle, minImageCount: nat, imageFormat: SurfaceFormat, imageExtent: Extent2D,
    imageArrayLayers: nat, sharing: SharingMode, preTransform: Uint32, presentMode: Uint32)

  /** The driver calls that the core issues and whose arguments it decides. */
  datatype Call =
    | CreateSwapchain(swapchainInfo: SwapchainInfo)
    | CreateDescriptorSetLayout(bindings: seq<LayoutBinding>)
    | AllocateDescriptorSet(pool: Handle, setLayout: Handle)
    | UpdateDescriptorSet(write: DescriptorWrite)
    | CreatePipelineLayout(setLayouts: seq<Handle>)
    | CreateGraphicsPipeline(info: PipelineInfo)
    | DestroyPipelineLayout(layout: Handle)
    | DestroyPipeline(pipeline: Handle)
    | DeviceWaitIdle
    | CreateShaderModule(code: seq<bv8>)
    | CreateHostVisibleBuffer(size: nat)
    | CreateFramebuffer(renderPass: Handle, attachments: seq<Handle>, width: nat, height: nat, layers: nat)

  /** A logical device, seen through the calls made on it. */
  class Device {
    var calls: seq<Call>

    constructor ()
      ensures calls == []
    {
      calls := [];
    }

    /** Issues `c`; a creating call returns the handle of the new object. */
    method Issue(c: Call) returns (h: Handle)
      modifies this
      ensures calls == old(calls) + [c]
      ensures h == Handle(|old(calls)|)
    {
      h := Handle(|calls|);
      calls := calls + [c];
    }
  }
}
