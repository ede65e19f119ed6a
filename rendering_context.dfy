/** Device and queue selection (src/RenderingContext.cpp): the extension and
    layer lists the instance and device are created with, the first GPU that
    has the required device extensions, the first queue family that can do
    graphics, and one queue-create entry per distinct family.

    What the driver reports (the GPUs in enumeration order, each with its
    extensions and queue families) is an input. The two `assert(false)`
    paths become errors carrying the assertion's message. Creating the
    instance, the messenger, the device, the queues and the command pool is
    left to the driver; the model returns the settings they are made with. */
module RenderingContexts {
  import opened Wrappers
  import opened Vk
  import opened Ordered

  const DebugUtilsExtension := "VK_EXT_debug_utils"
  const SwapchainExtension := "VK_KHR_swapchain"
  const ValidationLayer := "VK_LAYER_KHRONOS_validation"

  const NoSuitableGpu := "Suitable physical device not found"
  const NoSuitableQueue := "Device queue required is unsupported"

  datatype QueueFlag = GraphicsBit | ComputeBit | TransferBit | SparseBindingBit

  /** A `VkQueueFamilyProperties`, reduced to its flags and queue count. */
  datatype QueueFamily = QueueFamily(flags: set<QueueFlag>, queueCount: nat)

  /** A physical device as enumerated: its handle, the names of the device
      extensions it offers and its queue families. */
  datatype Gpu = Gpu(handle: Handle, extensions: seq<string>, families: seq<QueueFamily>)

  /** A `VkDeviceQueueCreateInfo`; its one priority is 1.0. */
  datatype QueueCreateInfo = QueueCreateInfo(family: nat, queueCount: nat)

  datatype Severity = Verbose | Info | Warning | Error
  datatype MessageType = General | Validation | Performance

  /** The severities and message types a debug messenger subscribes to. */
  datatype DebugMessengerInfo = DebugMessengerInfo(severities: set<Severity>, types: set<MessageType>)

  /** What `create` sets up: the instance extensions and layers, the
      messenger, the device extensions, the chosen GPU, the two families and
      the queues requested from the device. */
  datatype ContextConfig = ContextConfig(
    instanceExtensions: seq<string>,
    layers: seq<string>,
    messenger: DebugMessengerInfo,
    deviceExtensions: seq<string>,
    gpu: Handle,
    graphicsFamily: nat,
    presentFamily: nat,
    queueInfos: seq<QueueCreateInfo>)

  /** `populateDebugMessengerCreateInfo`: warnings and errors, validation
      and performance messages. */
  const DebugMessengerConfig := DebugMessengerInfo({Warning, Error}, {Validation, Performance})

  /** `debugCallback`: the line it writes to the error stream, and its
      result, which never asks the driver to abort the call. */
  function DebugCallback(severity: Severity, messageType: MessageType, message: string): (r: (string, bool))
    ensures r.0 == "validation layer: " + message + "\n"
    ensures !r.1
  {
    ("validation layer: " + message + "\n", false)
  }

  /** Every required name is among the available ones. */
  predicate Supports(available: seq<string>, required: seq<string>) {
    forall r :: r in required ==> r in available
  }

  /** `isExtensionsSupported`: the required names as a set, each available
      name erased from it, supported when nothing is left. */
  method IsExtensionsSupported(available: seq<string>, required: seq<string>) returns (b: bool)
    ensures b <==> Supports(available, required)
  {
    var unsupported := set r | r in required;
    for i := 0 to |available|
      invariant unsupported == (set r | r in required) - (set j | 0 <= j < i :: available[j])
    {
      unsupported := unsupported - {available[i]};
    }
    b := unsupported == {};
    if b {
      forall r | r in required ensures r in available {
        assert r !in unsupported;
        var j :| 0 <= j < |available| && available[j] == r;
      }
    } else {
      var r :| r in unsupported;
      assert r in required;
    }
  }

  /** The position of the first GPU that offers all of `required`, or
      `|gpus|` when none does. */
  function FirstSupported(gpus: seq<Gpu>, required: seq<string>): (i: nat)
    ensures i <= |gpus|
    ensures forall j :: 0 <= j < i ==> !Supports(gpus[j].extensions, required)
    ensures i < |gpus| ==> Supports(gpus[i].extensions, required)
  {
    if gpus == [] then 0
    else if Supports(gpus[0].extensions, required) then 0
    else 1 + FirstSupported(gpus[1..], required)
  }

  /** The scan stops at the first GPU that offers the extensions. */
  lemma {:induction false} FirstSupportedAt(gpus: seq<Gpu>, required: seq<string>, j: nat)
    requires j <= |gpus| && forall i :: 0 <= i < j ==> !Supports(gpus[i].extensions, required)
    requires j < |gpus| ==> Supports(gpus[j].extensions, required)
    ensures FirstSupported(gpus, required) == j
  {
    if j > 0 {
      FirstSupportedAt(gpus[1..], required, j - 1);
    }
  }

  /** `pickGPU`: the first GPU in enumeration order that offers every
      required device extension. */
  method PickGpu(gpus: seq<Gpu>, required: seq<string>) returns (r: Result<Gpu, string>)
    ensures var i := FirstSupported(gpus, required);
            && (r.Ok? <==> i < |gpus|)
            && (r.Ok? ==> r.value == gpus[i])
            && (r.Err? ==> r.error == NoSuitableGpu)
  {
    for i := 0 to |gpus|
      invariant forall j :: 0 <= j < i ==> !Supports(gpus[j].extensions, required)
    {
      var ok := IsExtensionsSupported(gpus[i].extensions, required);
      if ok {
        FirstSupportedAt(gpus, required, i);
        return Ok(gpus[i]);
      }
    }
    FirstSupportedAt(gpus, required, |gpus|);
    return Err(NoSuitableGpu);
  }

  /** `findQueueFamily`: the smallest family index that satisfies `cond`.
      The index is a `uint32_t`, as is the number of families the driver
      reports. */
  method FindQueueFamily(families: seq<QueueFamily>, cond: (nat, QueueFamily) -> bool) returns (r: Result<nat, string>)
    requires |families| < Uint32Modulus
    ensures r.Ok? ==> r.value < |families| && cond(r.value, families[r.value])
    ensures r.Ok? ==> forall j :: 0 <= j < r.value ==> !cond(j, families[j])
    ensures r.Err? <==> forall j :: 0 <= j < |families| ==> !cond(j, families[j])
    ensures r.Err? ==> r.error == NoSuitableQueue
  {
    for i := 0 to |families|
      invariant forall j :: 0 <= j < i ==> !cond(j, families[j])
    {
      if cond(i, families[i]) {
        return Ok(i);
      }
    }
    return Err(NoSuitableQueue);
  }

  /** The condition `create` looks for: the family can do graphics. */
  predicate CanDoGraphics(i: nat, family: QueueFamily) {
    GraphicsBit in family.flags
  }

  /** `createLogicalDevice`'s queue list: one entry of one queue per family
      of the `std::set`, in its ascending order, so no family twice. */
  method QueueCreateInfos(families: set<nat>) returns (infos: seq<QueueCreateInfo>)
    ensures |infos| == |families|
    ensures forall i :: 0 <= i < |infos| ==> infos[i].queueCount == 1 && infos[i].family in families
    ensures forall f :: f in families ==> exists i :: 0 <= i < |infos| && infos[i].family == f
    ensures forall i, j :: 0 <= i < j < |infos| ==> infos[i].family < infos[j].family
  {
    var order := Ascending(families);
    AscendingSorted(families);
    infos := [];
    for i := 0 to |order|
      invariant |infos| == i
      invariant forall k :: 0 <= k < i ==> infos[k] == QueueCreateInfo(order[k], 1)
    {
      infos := infos + [QueueCreateInfo(order[i], 1)];
    }
    forall f | f in families ensures exists i :: 0 <= i < |infos| && infos[i].family == f {
      var i :| 0 <= i < |order| && order[i] == f;
      assert infos[i].family == f;
    }
  }

  /** `RenderingContext::create`: the window's instance extensions plus
      debug utils, the validation layer, the swapchain device extension; the
      first GPU offering it; that GPU's first graphics family, used for
      presenting as well; one queue requested from that one family. */
  method Create(windowExtensions: seq<string>, gpus: seq<Gpu>) returns (r: Result<ContextConfig, string>)
    requires forall i :: 0 <= i < |gpus| ==> |gpus[i].families| < Uint32Modulus
    ensures var i := FirstSupported(gpus, [SwapchainExtension]);
            && (r.Ok? <==> i < |gpus| && exists j :: 0 <= j < |gpus[i].families| && CanDoGraphics(j, gpus[i].families[j]))
            && (i == |gpus| ==> r == Err(NoSuitableGpu))
            && (r.Ok? ==>
                  var c := r.value;
                  && c.instanceExtensions == windowExtensions + [DebugUtilsExtension]
                  && c.layers == [ValidationLayer]
                  && c.messenger == DebugMessengerConfig
                  && c.deviceExtensions == [SwapchainExtension]
                  && c.gpu == gpus[i].handle
                  && c.graphicsFamily < |gpus[i].families|
                  && CanDoGraphics(c.graphicsFamily, gpus[i].families[c.graphicsFamily])
                  && (forall j :: 0 <= j < c.graphicsFamily ==> !CanDoGraphics(j, gpus[i].families[j]))
                  && c.presentFamily == c.graphicsFamily
                  && c.queueInfos == [QueueCreateInfo(c.graphicsFamily, 1)])
  {
    var instanceExtensions := windowExtensions + [DebugUtilsExtension];
    var layers := [ValidationLayer];
    var deviceExtensions := [SwapchainExtension];

    var picked := PickGpu(gpus, deviceExtensions);
    if picked.Err? {
      return Err(picked.error);
    }
    var gpu := picked.value;
    var graphics := FindQueueFamily(gpu.families, CanDoGraphics);
    if graphics.Err? {
      return Err(graphics.error);
    }
    var graphicsFamily := graphics.value;
    var presentFamily := graphicsFamily;
    var queueInfos := QueueCreateInfos({graphicsFamily, presentFamily});
    assert {graphicsFamily, presentFamily} == {graphicsFamily};
    assert queueInfos[0].family == graphicsFamily;
    return Ok(ContextConfig(instanceExtensions, layers, DebugMessengerConfig, deviceExtensions,
                            gpu.handle, graphicsFamily, presentFamily, queueInfos));
  }

  /** Two distinct families would give two queue-create entries, in
      ascending order; equal ones give one. */
  method DistinctFamiliesGiveTwo(graphics: nat, present: nat) returns (infos: seq<QueueCreateInfo>)
    ensures graphics == present ==> infos == [QueueCreateInfo(graphics, 1)]
    ensures graphics < present ==> infos == [QueueCreateInfo(graphics, 1), QueueCreateInfo(present, 1)]
    ensures present < graphics ==> infos == [QueueCreateInfo(present, 1), QueueCreateInfo(graphics, 1)]
  {
    infos := QueueCreateInfos({graphics, present});
    if graphics == present {
      assert {graphics, present} == {graphics};
      assert infos[0].family == graphics;
    } else {
      assert |{graphics, present}| == 2;
      assert infos[0].family in {graphics, present} && infos[1].family in {graphics, present};
    }
  }
}
