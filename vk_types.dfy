/**
 * Values the hello-triangle program reads back from the Vulkan driver while it
 * selects a device and negotiates its swap chain. Vulkan enumerations keep
 * their numeric values from vulkan_core.h, so a driver may report any code.
 */
module VkTypes {

  /** uint32_t */
  const UINT32_MAX: int := 0xFFFF_FFFF
  type U32 = x: int | 0 <= x <= UINT32_MAX

  /** int, as returned by glfwGetFramebufferSize */
  type I32 = x: int | -0x8000_0000 <= x < 0x8000_0000

  /** static_cast<uint32_t> of a 32-bit int: two's-complement reinterpretation */
  function ToU32(x: I32): (r: U32)
    ensures 0 <= x ==> r == x
    ensures x < 0 ==> r == x + 0x1_0000_0000
  {
    x % 0x1_0000_0000
  }

  // VkFormat, VkColorSpaceKHR and VkPresentModeKHR codes used by the program
  const FORMAT_R8G8B8A8_UNORM: U32 := 37
  const FORMAT_B8G8R8A8_SRGB: U32 := 50
  const COLOR_SPACE_SRGB_NONLINEAR: U32 := 0
  const PRESENT_MODE_IMMEDIATE: U32 := 0
  const PRESENT_MODE_MAILBOX: U32 := 1
  const PRESENT_MODE_FIFO: U32 := 2

  /** The device extensions the program requires: VK_KHR_SWAPCHAIN_EXTENSION_NAME. */
  const DEVICE_EXTENSIONS: seq<string> := ["VK_KHR_swapchain"]
  /** The instance layers requested when validation is enabled. */
  const VALIDATION_LAYERS: seq<string> := ["VK_LAYER_KHRONOS_validation"]

  datatype Option<T> = None | Some(value: T)

  datatype Extent2D = Extent2D(width: U32, height: U32)

  datatype SurfaceFormat = SurfaceFormat(format: U32, colorSpace: U32)

  type PresentMode = U32

  /** The fields of VkSurfaceCapabilitiesKHR that the program reads. */
  datatype SurfaceCapabilities = SurfaceCapabilities(
    minImageCount: U32,
    maxImageCount: U32,        // 0 means "no upper limit"
    currentExtent: Extent2D,   // width UINT32_MAX means "the application decides"
    minImageExtent: Extent2D,
    maxImageExtent: Extent2D,
    currentTransform: U32)

  datatype SwapChainSupportDetails = SwapChainSupportDetails(
    capabilities: SurfaceCapabilities,
    formats: seq<SurfaceFormat>,
    presentModes: seq<PresentMode>)

  /**
   * One queue family: whether VK_QUEUE_GRAPHICS_BIT is set in its flags, and
   * what vkGetPhysicalDeviceSurfaceSupportKHR answers for it and the surface.
   */
  datatype QueueFamily = QueueFamily(graphics: bool, presentSupport: bool)

  /** findQueueFamilies counts families with a signed 32-bit int. */
  const MAX_QUEUE_FAMILIES: nat := 0x7FFF_FFFF
  type QueueFamilyList = s: seq<QueueFamily> | |s| <= MAX_QUEUE_FAMILIES

  /** What the program probes of one physical device against its surface. */
  datatype PhysicalDevice = PhysicalDevice(
    queueFamilies: QueueFamilyList,
    extensions: seq<string>,
    swapChainSupport: SwapChainSupportDetails)

  /** Index of the first element of s satisfying p, scanning from the front. */
  function FirstIndex<T>(s: seq<T>, p: T -> bool): (r: Option<nat>)
    ensures r.Some? ==> r.value < |s| && p(s[r.value])
    ensures r.Some? ==> forall j :: 0 <= j < r.value ==> !p(s[j])
    ensures r.None? ==> forall j :: 0 <= j < |s| ==> !p(s[j])
  {
    if |s| == 0 then None
    else if p(s[0]) then Some(0)
    else match FirstIndex(s[1..], p)
      case None => None
      case Some(k) => Some(k + 1)
  }
}
