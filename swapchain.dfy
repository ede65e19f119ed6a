/** Swapchain configuration (src/Swapchain.cpp): the choice of surface
    format, present mode, extent, image count and pre-transform from what
    the surface reports, and the create-info handed to the driver.

    The surface, the format and present-mode lists, the capabilities and the
    images the driver reports are inputs. The rules follow the surface
    queries of the Vulkan specification (Window System Integration,
    `VkSurfaceCapabilitiesKHR`): a current width of `0xFFFFFFFF` leaves the
    extent to the application, and a `maxImageCount` of 0 means no limit. */
module SwapchainConfig {
  import opened Vk

  /** The file-local `clamp` template. */
  function Clamp(val: int, low: int, high: int): (r: int)
    ensures r == low || r == high || r == val
    ensures low <= high ==> low <= r <= high
    ensures low <= val <= high ==> r == val
  {
    if val < low then low else if val > high then high else val
  }

  /** Clamping is idempotent and keeps the order of its inputs. */
  lemma ClampIdempotentMonotone(a: int, b: int, low: int, high: int)
    requires low <= high
    ensures Clamp(Clamp(a, low, high), low, high) == Clamp(a, low, high)
    ensures a <= b ==> Clamp(a, low, high) <= Clamp(b, low, high)
  {
  }

  /** The fields of `VkSurfaceCapabilitiesKHR` the configuration reads. */
  datatype SurfaceCapabilities = SurfaceCapabilities(
    minImageCount: Uint32, maxImageCount: Uint32,
    currentExtent: Extent2D, minImageExtent: Extent2D, maxImageExtent: Extent2D,
    currentTransform: Uint32)

  /** The conversion of a `size_t` window dimension to the `uint32_t`
      parameter of `clamp<uint32_t>`: the value modulo 2^32. */
  function ToUint32(n: nat): (r: Uint32)
    ensures n < Uint32Modulus ==> r == n
  {
    n % Uint32Modulus
  }

  /** The extent: the surface's current extent, or, when its width is
      `UINT32_MAX`, the window size clamped per axis to the supported
      range. */
  function ChooseExtent(caps: SurfaceCapabilities, windowWidth: nat, windowHeight: nat): (e: Extent2D)
    ensures caps.currentExtent.width != Uint32Max ==> e == caps.currentExtent
    ensures caps.currentExtent.width == Uint32Max &&
            caps.minImageExtent.width <= caps.maxImageExtent.width ==>
              caps.minImageExtent.width <= e.width <= caps.maxImageExtent.width
    ensures caps.currentExtent.width == Uint32Max &&
            caps.minImageExtent.height <= caps.maxImageExtent.height ==>
              caps.minImageExtent.height <= e.height <= caps.maxImageExtent.height
    ensures caps.currentExtent.width == Uint32Max &&
            caps.minImageExtent.width <= windowWidth <= caps.maxImageExtent.width ==>
              e.width == windowWidth
    ensures caps.currentExtent.width == Uint32Max &&
            caps.minImageExtent.height <= windowHeight <= caps.maxImageExtent.height ==>
              e.height == windowHeight
  {
    if caps.currentExtent.width == Uint32Max then
      Extent2D(Clamp(ToUint32(windowWidth), caps.minImageExtent.width, caps.maxImageExtent.width),
               Clamp(ToUint32(windowHeight), caps.minImageExtent.height, caps.maxImageExtent.height))
    else
      caps.currentExtent
  }

  /** The image count: one more than the minimum, in `uint32_t` arithmetic,
      lowered to the maximum when there is one and it is exceeded. */
  function ImageCount(caps: SurfaceCapabilities): (n: Uint32)
    ensures caps.maxImageCount > 0 ==> n <= caps.maxImageCount
    ensures caps.minImageCount < Uint32Max &&
            (caps.maxImageCount == 0 || caps.minImageCount < caps.maxImageCount) ==>
              n == caps.minImageCount + 1
    ensures caps.maxImageCount > 0 && caps.maxImageCount <= caps.minImageCount < Uint32Max ==>
              n == caps.maxImageCount
    ensures caps.minImageCount == Uint32Max ==> n == 0
  {
    var count := (caps.minImageCount + 1) % Uint32Modulus;
    if caps.maxImageCount > 0 && count > caps.maxImageCount then caps.maxImageCount else count
  }

  /** For capabilities the Vulkan specification allows (a minimum of at
      least one, a maximum of 0 or no less than the minimum) whose minimum
      does not wrap, the count lies in the supported range. */
  lemma ImageCountSupported(caps: SurfaceCapabilities)
    requires 1 <= caps.minImageCount < Uint32Max
    requires caps.maxImageCount == 0 || caps.minImageCount <= caps.maxImageCount
    ensures caps.minImageCount <= ImageCount(caps)
    ensures caps.maxImageCount == 0 || ImageCount(caps) <= caps.maxImageCount
  {
  }

  /** The sharing mode: exclusive when one family does graphics and
      presentation, otherwise concurrent between the two. */
  function Sharing(graphicsFamily: Uint32, presentFamily: Uint32): (m: SharingMode)
    ensures m == Exclusive <==> graphicsFamily == presentFamily
    ensures m != Exclusive ==> m.families == [graphicsFamily, presentFamily]
  {
    if graphicsFamily == presentFamily then Exclusive
    else Concurrent([graphicsFamily, presentFamily])
  }

  /** `std::vector::resize` on a vector of handles: the first `n` elements
      are kept and new ones are null. */
  function Resize(s: seq<Handle>, n: nat): (r: seq<Handle>)
    ensures |r| == n
    ensures forall i :: 0 <= i < n && i < |s| ==> r[i] == s[i]
    ensures forall i :: |s| <= i < n ==> r[i] == Null
  {
    if n <= |s| then s[..n] else s + seq(n - |s|, _ => Null)
  }

  class Swapchain {
    var surface: Handle
    var swapchain: Handle
    var surfaceFormat: SurfaceFormat
    var presentMode: Uint32
    var extent: Extent2D
    var images: seq<Handle>
    var preTransform: Uint32

    /** `Swapchain swapchain{}`: every field zero or null. */
    constructor ()
      ensures surface == Null && swapchain == Null && images == []
      ensures surfaceFormat == SurfaceFormat(0, 0) && presentMode == 0
      ensures extent == Extent2D(0, 0) && preTransform == 0
    {
      surface := Null;
      swapchain := Null;
      surfaceFormat := SurfaceFormat(0, 0);
      presentMode := 0;
      extent := Extent2D(0, 0);
      images := [];
      preTransform := 0;
    }

    /** `configureSettings`: the first reported format and present mode
        (both lists must be non-empty), the extent, the image count and the
        current transform. */
    method ConfigureSettings(formats: seq<SurfaceFormat>, presentModes: seq<Uint32>,
                             caps: SurfaceCapabilities, windowWidth: nat, windowHeight: nat)
      requires |formats| != 0 && |presentModes| != 0
      modifies this
      ensures surfaceFormat == formats[0] && presentMode == presentModes[0]
      ensures extent == ChooseExtent(caps, windowWidth, windowHeight)
      ensures images == Resize(old(images), ImageCount(caps))
      ensures preTransform == caps.currentTransform
      ensures surface == old(surface) && swapchain == old(swapchain)
    {
      surfaceFormat := formats[0];
      presentMode := presentModes[0];

      if caps.currentExtent.width == Uint32Max {
        extent := Extent2D(
          Clamp(ToUint32(windowWidth), caps.minImageExtent.width, caps.maxImageExtent.width),
          Clamp(ToUint32(windowHeight), caps.minImageExtent.height, caps.maxImageExtent.height));
      } else {
        extent := caps.currentExtent;
      }

      var minImgCount := (caps.minImageCount + 1) % Uint32Modulus;
      if caps.maxImageCount > 0 && minImgCount > caps.maxImageCount {
        minImgCount := caps.maxImageCount;
      }
      images := Resize(images, minImgCount);

      preTransform := caps.currentTransform;
    }

    /** `Swapchain::create`: configures a new swapchain for `surface`, issues
        the create call with the configured settings, and takes the images the
        driver reports. */
    static method Create(device: Device, surface: Handle,
                         formats: seq<SurfaceFormat>, presentModes: seq<Uint32>,
                         caps: SurfaceCapabilities, windowWidth: nat, windowHeight: nat,
                         graphicsFamily: Uint32, presentFamily: Uint32, reported: seq<Handle>)
      returns (sc: Swapchain)
      requires |formats| != 0 && |presentModes| != 0
      modifies device
      ensures fresh(sc)
      ensures device.calls == old(device.calls) + [CreateSwapchain(SwapchainInfo(
                surface, ImageCount(caps), formats[0], ChooseExtent(caps, windowWidth, windowHeight),
                1, Sharing(graphicsFamily, presentFamily), caps.currentTransform, presentModes[0]))]
      ensures sc.swapchain == Handle(|old(device.calls)|) && sc.surface == surface
      ensures sc.surfaceFormat == formats[0] && sc.presentMode == presentModes[0]
      ensures sc.extent == ChooseExtent(caps, windowWidth, windowHeight)
      ensures sc.preTransform == caps.currentTransform
      ensures sc.images == reported
    {
      sc := new Swapchain();
      sc.surface := surface;

      sc.ConfigureSettings(formats, presentModes, caps, windowWidth, windowHeight);
      var info := SwapchainInfo(sc.surface, |sc.images|, sc.surfaceFormat, sc.extent, 1,
                                Sharing(graphicsFamily, presentFamily), sc.preTransform, sc.presentMode);

      sc.swapchain := device.Issue(CreateSwapchain(info));

      // Resized to the count the driver reports, then filled with its images.
      sc.images := reported;
    }
  }
}
