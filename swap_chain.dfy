/**
 * Swap-chain negotiation: the surface format, present mode, extent and image
 * count the program asks for, and the sharing mode of the chain's images.
 */
module SwapChain {
  import opened VkTypes

  /** 8-bit BGRA with sRGB encoding, in the non-linear sRGB colour space. */
  const PREFERRED_FORMAT: SurfaceFormat := SurfaceFormat(FORMAT_B8G8R8A8_SRGB, COLOR_SPACE_SRGB_NONLINEAR)

  predicate IsPreferredFormat(f: SurfaceFormat) {
    f.format == FORMAT_B8G8R8A8_SRGB && f.colorSpace == COLOR_SPACE_SRGB_NONLINEAR
  }

  /**
   * chooseSwapSurfaceFormat: the first preferred entry, else the first entry.
   * The source indexes availableFormats[0] unguarded, so the list must not be
   * empty; device selection guarantees that for the chosen device.
   */
  function ChooseSwapSurfaceFormat(formats: seq<SurfaceFormat>): (r: SurfaceFormat)
    requires |formats| > 0
    ensures r in formats
    ensures (exists i :: 0 <= i < |formats| && IsPreferredFormat(formats[i])) ==> r == PREFERRED_FORMAT
    ensures (forall i :: 0 <= i < |formats| ==> !IsPreferredFormat(formats[i])) ==> r == formats[0]
  {
    match FirstIndex(formats, IsPreferredFormat)
    case Some(k) => formats[k]
    case None => formats[0]
  }

  /** chooseSwapPresentMode: MAILBOX when listed, else FIFO (listed or not). */
  function ChooseSwapPresentMode(modes: seq<PresentMode>): (r: PresentMode)
    ensures r == PRESENT_MODE_MAILBOX <==> PRESENT_MODE_MAILBOX in modes
    ensures r != PRESENT_MODE_MAILBOX ==> r == PRESENT_MODE_FIFO
  {
    if |modes| == 0 then PRESENT_MODE_FIFO
    else if modes[0] == PRESENT_MODE_MAILBOX then modes[0]
    else ChooseSwapPresentMode(modes[1..])
  }

  function Distance(a: int, b: int): nat {
    if a <= b then b - a else a - b
  }

  /**
   * std::clamp(v, lo, hi), which is undefined when hi < lo: the point of
   * [lo, hi] nearest to v.
   */
  function Clamp(v: int, lo: int, hi: int): (r: int)
    requires lo <= hi
    ensures lo <= r <= hi
    ensures forall x :: lo <= x <= hi ==> Distance(r, v) <= Distance(x, v)
    ensures lo <= v <= hi ==> r == v
  {
    if v < lo then lo else if hi < v then hi else v
  }

  /** The clamp in chooseSwapExtent is defined only when min <= max in both dimensions. */
  predicate ExtentBoundsOrdered(caps: SurfaceCapabilities) {
    caps.minImageExtent.width <= caps.maxImageExtent.width &&
    caps.minImageExtent.height <= caps.maxImageExtent.height
  }

  predicate ExtentWithinBounds(e: Extent2D, caps: SurfaceCapabilities) {
    caps.minImageExtent.width <= e.width <= caps.maxImageExtent.width &&
    caps.minImageExtent.height <= e.height <= caps.maxImageExtent.height
  }

  /**
   * chooseSwapExtent. Only the width of currentExtent is compared with the
   * UINT32_MAX sentinel. In the sentinel case the framebuffer size (from the
   * window system, here the two parameters) is cast to uint32_t and each
   * dimension is clamped on its own.
   */
  function ChooseSwapExtent(caps: SurfaceCapabilities, framebufferWidth: I32, framebufferHeight: I32): (r: Extent2D)
    requires caps.currentExtent.width == UINT32_MAX ==> ExtentBoundsOrdered(caps)
    ensures caps.currentExtent.width != UINT32_MAX ==> r == caps.currentExtent
    ensures caps.currentExtent.width == UINT32_MAX ==> ExtentWithinBounds(r, caps)
    ensures caps.currentExtent.width == UINT32_MAX ==>
      r.width == Clamp(ToU32(framebufferWidth), caps.minImageExtent.width, caps.maxImageExtent.width) &&
      r.height == Clamp(ToU32(framebufferHeight), caps.minImageExtent.height, caps.maxImageExtent.height)
    ensures caps.currentExtent.width == UINT32_MAX && ExtentWithinBounds(Extent2D(ToU32(framebufferWidth), ToU32(framebufferHeight)), caps) ==>
      r == Extent2D(ToU32(framebufferWidth), ToU32(framebufferHeight))
  {
    if caps.currentExtent.width != UINT32_MAX then
      caps.currentExtent
    else
      var actualExtent := Extent2D(ToU32(framebufferWidth), ToU32(framebufferHeight));
      Extent2D(
        Clamp(actualExtent.width, caps.minImageExtent.width, caps.maxImageExtent.width),
        Clamp(actualExtent.height, caps.minImageExtent.height, caps.maxImageExtent.height))
  }

  /**
   * The image count createSwapChain requests: minImageCount + 1 in uint32_t
   * arithmetic, lowered to maxImageCount when that is a real limit (non-zero).
   */
  function ImageCount(caps: SurfaceCapabilities): (n: U32)
    ensures caps.maxImageCount == 0 && caps.minImageCount < UINT32_MAX ==> n == caps.minImageCount + 1
    ensures caps.maxImageCount > 0 && caps.minImageCount <= caps.maxImageCount && caps.minImageCount < UINT32_MAX ==>
      caps.minImageCount <= n <= caps.maxImageCount
    ensures caps.maxImageCount > 0 ==> n <= caps.maxImageCount
    ensures n <= caps.minImageCount + 1
    ensures caps.minImageCount == UINT32_MAX ==> n == 0
    ensures caps.minImageCount < UINT32_MAX && (caps.maxImageCount == 0 || caps.minImageCount + 1 <= caps.maxImageCount) ==>
      n == caps.minImageCount + 1
    ensures caps.minImageCount < UINT32_MAX && caps.maxImageCount > 0 && caps.minImageCount + 1 > caps.maxImageCount ==>
      n == caps.maxImageCount
  {
    var requested := (caps.minImageCount + 1) % 0x1_0000_0000;
    if caps.maxImageCount > 0 && requested > caps.maxImageCount then caps.maxImageCount else requested
  }

  datatype SharingMode = Exclusive | Concurrent

  /** The fields of VkSwapchainCreateInfoKHR that createSwapChain decides. */
  datatype SwapchainCreateInfo = SwapchainCreateInfo(
    minImageCount: U32,
    imageFormat: U32,
    imageColorSpace: U32,
    imageExtent: Extent2D,
    imageSharingMode: SharingMode,
    queueFamilyIndices: seq<U32>,
    preTransform: U32,
    presentMode: PresentMode)

  /** What createSwapChain needs of the support details before it can negotiate. */
  predicate Negotiable(support: SwapChainSupportDetails) {
    |support.formats| > 0 &&
    (support.capabilities.currentExtent.width == UINT32_MAX ==> ExtentBoundsOrdered(support.capabilities))
  }

  /**
   * The decisions of createSwapChain, for the chosen device's support details
   * and its graphics and present queue family indices. The images are shared
   * concurrently by both families exactly when the families differ.
   */
  method BuildSwapchainCreateInfo(support: SwapChainSupportDetails, graphicsFamily: U32, presentFamily: U32,
                                  framebufferWidth: I32, framebufferHeight: I32)
    returns (info: SwapchainCreateInfo)
    requires Negotiable(support)
    ensures info.imageFormat == ChooseSwapSurfaceFormat(support.formats).format
    ensures info.imageColorSpace == ChooseSwapSurfaceFormat(support.formats).colorSpace
    ensures info.presentMode == ChooseSwapPresentMode(support.presentModes)
    ensures info.imageExtent == ChooseSwapExtent(support.capabilities, framebufferWidth, framebufferHeight)
    ensures info.minImageCount == ImageCount(support.capabilities)
    ensures info.imageSharingMode == Concurrent <==> graphicsFamily != presentFamily
    ensures info.imageSharingMode == Concurrent ==> info.queueFamilyIndices == [graphicsFamily, presentFamily]
    ensures info.imageSharingMode == Exclusive ==> info.queueFamilyIndices == []
    ensures info.preTransform == support.capabilities.currentTransform
  {
    var surfaceFormat := ChooseSwapSurfaceFormat(support.formats);
    var presentMode := ChooseSwapPresentMode(support.presentModes);
    var extent := ChooseSwapExtent(support.capabilities, framebufferWidth, framebufferHeight);

    var imageCount: U32 := (support.capabilities.minImageCount + 1) % 0x1_0000_0000;
    if support.capabilities.maxImageCount > 0 && imageCount > support.capabilities.maxImageCount {
      imageCount := support.capabilities.maxImageCount;
    }

    var sharingMode: SharingMode;
    var queueFamilyIndices: seq<U32>;
    if graphicsFamily != presentFamily {
      sharingMode, queueFamilyIndices := Concurrent, [graphicsFamily, presentFamily];
    } else {
      sharingMode, queueFamilyIndices := Exclusive, [];
    }

    info := SwapchainCreateInfo(imageCount, surfaceFormat.format, surfaceFormat.colorSpace, extent,
                                sharingMode, queueFamilyIndices, support.capabilities.currentTransform, presentMode);
  }

  /** Clamping twice is clamping once. */
  lemma ChooseSwapExtentIdempotent(caps: SurfaceCapabilities, framebufferWidth: I32, framebufferHeight: I32)
    requires caps.currentExtent.width == UINT32_MAX && ExtentBoundsOrdered(caps)
    ensures var e := ChooseSwapExtent(caps, framebufferWidth, framebufferHeight);
      e.width < 0x8000_0000 && e.height < 0x8000_0000 ==>
      ChooseSwapExtent(caps, e.width, e.height) == e
  {
  }

  /** A BGRA/sRGB entry later in the list is preferred over the first entry. */
  lemma PreferredFormatFoundLater()
    ensures ChooseSwapSurfaceFormat([SurfaceFormat(FORMAT_R8G8B8A8_UNORM, COLOR_SPACE_SRGB_NONLINEAR), PREFERRED_FORMAT])
      == PREFERRED_FORMAT
  {
    var formats := [SurfaceFormat(FORMAT_R8G8B8A8_UNORM, COLOR_SPACE_SRGB_NONLINEAR), PREFERRED_FORMAT];
    assert IsPreferredFormat(formats[1]);
  }

  /** FIFO is returned even when the surface does not list it. */
  lemma FifoWhenMailboxMissing()
    ensures ChooseSwapPresentMode([PRESENT_MODE_IMMEDIATE]) == PRESENT_MODE_FIFO
    ensures ChooseSwapPresentMode([PRESENT_MODE_FIFO, PRESENT_MODE_MAILBOX]) == PRESENT_MODE_MAILBOX
  {
  }

  /**
   * A surface offering only BGRA/sRGB and FIFO, with minImageCount 2, no
   * maximum and a current extent of 800x600, gets a three-image 800x600
   * BGRA/sRGB chain presented in FIFO mode, whatever the framebuffer size.
   */
  lemma FixedExtentScenario(framebufferWidth: I32, framebufferHeight: I32)
    ensures var caps := SurfaceCapabilities(2, 0, Extent2D(800, 600), Extent2D(1, 1), Extent2D(4096, 4096), 1);
      ImageCount(caps) == 3 &&
      ChooseSwapExtent(caps, framebufferWidth, framebufferHeight) == Extent2D(800, 600) &&
      ChooseSwapSurfaceFormat([PREFERRED_FORMAT]) == PREFERRED_FORMAT &&
      ChooseSwapPresentMode([PRESENT_MODE_FIFO]) == PRESENT_MODE_FIFO
  {
  }

  /** With the sentinel extent the framebuffer size is used when it fits, and clamped when it does not. */
  lemma SentinelExtentScenario()
    ensures var caps := SurfaceCapabilities(2, 2, Extent2D(UINT32_MAX, UINT32_MAX), Extent2D(1, 1), Extent2D(4096, 4096), 1);
      ChooseSwapExtent(caps, 1000, 700) == Extent2D(1000, 700) &&
      ChooseSwapExtent(caps, 5000, -1) == Extent2D(4096, 4096) &&
      ImageCount(caps) == 2
  {
  }
}
