/**
 * The part of HelloTriangleApplication's start-up that chooses a device and
 * negotiates the swap chain: the members pickPhysicalDevice,
 * createLogicalDevice and createSwapChain assign, and the errors they raise.
 */
module Application {
  import opened VkTypes
  import opened QueueFamilies
  import opened SwapChain
  import opened DeviceSelection

  /** The runtime_error / bad_optional_access exceptions these steps can throw. */
  datatype InitError =
    | NoVulkanDevice      // "failed to find GPUs with Vulkan support!"
    | NoSuitableDevice    // "failed to find a suitable GPU!"
    | BadOptionalAccess   // .value() on an empty queue-family index
    | MissingValidationLayers  // "validation layers requested, but not available!"

  /** The fields of VkDeviceCreateInfo createLogicalDevice decides. */
  datatype DeviceCreateInfo = DeviceCreateInfo(queueCreateInfos: seq<DeviceQueueCreateInfo>, enabledExtensions: seq<string>)

  /** A queue handle from vkGetDeviceQueue: queue number queueIndex of a family. */
  datatype Queue = Queue(family: U32, queueIndex: nat)

  class HelloTriangleApplication {
    /** What vkEnumeratePhysicalDevices reports, in its order, probed against the surface. */
    const devices: seq<PhysicalDevice>

    /** An index into devices; None stands for VK_NULL_HANDLE. */
    var physicalDevice: Option<nat>
    var device: Option<DeviceCreateInfo>
    var graphicsQueue: Option<Queue>
    var presentQueue: Option<Queue>
    var swapChain: Option<SwapchainCreateInfo>
    var swapChainImageFormat: U32
    var swapChainExtent: Extent2D

    ghost predicate Valid()
      reads this
    {
      physicalDevice.Some? ==> physicalDevice.value < |devices|
    }

    constructor (devices: seq<PhysicalDevice>)
      ensures Valid()
      ensures this.devices == devices && physicalDevice == None && device == None
      ensures graphicsQueue == None && presentQueue == None && swapChain == None
    {
      this.devices := devices;
      physicalDevice := None;
      device := None;
      graphicsQueue, presentQueue := None, None;
      swapChain := None;
      swapChainImageFormat := 0;
      swapChainExtent := Extent2D(0, 0);
    }

    /**
     * pickPhysicalDevice: fail when no device is enumerated; otherwise store
     * the first suitable device, and fail if the member is still null.
     */
    method PickPhysicalDevice() returns (err: Option<InitError>)
      requires Valid()
      modifies this`physicalDevice
      ensures Valid()
      ensures |devices| == 0 ==> err == Some(NoVulkanDevice) && physicalDevice == old(physicalDevice)
      ensures |devices| > 0 && FirstSuitable(devices).Some? ==> physicalDevice == FirstSuitable(devices) && err == None
      ensures |devices| > 0 && FirstSuitable(devices).None? ==> physicalDevice == old(physicalDevice)
      ensures |devices| > 0 ==> (err == Some(NoSuitableDevice) <==> physicalDevice.None?)
      ensures |devices| > 0 ==> err != Some(NoVulkanDevice)
      ensures |devices| > 0 && physicalDevice.Some? ==> err == None
    {
      if |devices| == 0 {
        return Some(NoVulkanDevice);
      }
      for k := 0 to |devices|
        invariant physicalDevice == old(physicalDevice)
        invariant forall j :: 0 <= j < k ==> !Suitable(devices[j])
      {
        var suitable := IsDeviceSuitable(devices[k]);
        if suitable {
          physicalDevice := Some(k);
          break;
        }
      }
      if physicalDevice.None? {
        return Some(NoSuitableDevice);
      }
      return None;
    }

    /**
     * createLogicalDevice: one queue request per distinct family index, the
     * required device extensions, and queue 0 of the graphics and present
     * families.
     */
    method CreateLogicalDevice() returns (err: Option<InitError>)
      requires Valid() && physicalDevice.Some?
      modifies this`device, this`graphicsQueue, this`presentQueue
      ensures Valid()
      ensures var indices := ScannedIndices(devices[physicalDevice.value].queueFamilies);
        if !indices.IsComplete() then
          err == Some(BadOptionalAccess) &&
          device == old(device) && graphicsQueue == old(graphicsQueue) && presentQueue == old(presentQueue)
        else
          err == None &&
          device.Some? && device.value.enabledExtensions == DEVICE_EXTENSIONS &&
          RequestedFamilies(device.value.queueCreateInfos) == {indices.graphicsFamily.value, indices.presentFamily.value} &&
          |device.value.queueCreateInfos| == (if indices.graphicsFamily == indices.presentFamily then 1 else 2) &&
          (forall k :: 0 <= k < |device.value.queueCreateInfos| ==>
            device.value.queueCreateInfos[k].queueCount == 1 && device.value.queueCreateInfos[k].queuePriority == 1.0) &&
          (forall i, j :: 0 <= i < j < |device.value.queueCreateInfos| ==>
            device.value.queueCreateInfos[i].queueFamilyIndex < device.value.queueCreateInfos[j].queueFamilyIndex) &&
          graphicsQueue == Some(Queue(indices.graphicsFamily.value, 0)) &&
          presentQueue == Some(Queue(indices.presentFamily.value, 0))
    {
      var indices := FindQueueFamilies(devices[physicalDevice.value].queueFamilies);
      if !indices.IsComplete() {
        return Some(BadOptionalAccess);
      }
      var queueCreateInfos := BuildQueueCreateInfos(indices.graphicsFamily.value, indices.presentFamily.value);
      device := Some(DeviceCreateInfo(queueCreateInfos, DEVICE_EXTENSIONS));
      graphicsQueue := Some(Queue(indices.graphicsFamily.value, 0));
      presentQueue := Some(Queue(indices.presentFamily.value, 0));
      return None;
    }

    /**
     * createSwapChain: negotiate against the chosen device's support details
     * and record the chosen format and extent in the application's members.
     * The window system's framebuffer size is passed in.
     */
    method CreateSwapChain(framebufferWidth: I32, framebufferHeight: I32) returns (err: Option<InitError>)
      requires Valid() && physicalDevice.Some?
      requires Negotiable(devices[physicalDevice.value].swapChainSupport)
      modifies this`swapChain, this`swapChainImageFormat, this`swapChainExtent
      ensures Valid()
      ensures var d := devices[physicalDevice.value];
        var indices := ScannedIndices(d.queueFamilies);
        var support := d.swapChainSupport;
        if !indices.IsComplete() then
          err == Some(BadOptionalAccess) && swapChain == old(swapChain) &&
          swapChainImageFormat == old(swapChainImageFormat) && swapChainExtent == old(swapChainExtent)
        else
          err == None && swapChain.Some? &&
          swapChain.value.minImageCount == ImageCount(support.capabilities) &&
          swapChainImageFormat == swapChain.value.imageFormat == ChooseSwapSurfaceFormat(support.formats).format &&
          swapChain.value.imageColorSpace == ChooseSwapSurfaceFormat(support.formats).colorSpace &&
          swapChain.value.presentMode == ChooseSwapPresentMode(support.presentModes) &&
          swapChainExtent == swapChain.value.imageExtent ==
            ChooseSwapExtent(support.capabilities, framebufferWidth, framebufferHeight) &&
          (swapChain.value.imageSharingMode == Concurrent <==> indices.graphicsFamily != indices.presentFamily) &&
          (swapChain.value.imageSharingMode == Concurrent ==>
            swapChain.value.queueFamilyIndices == [indices.graphicsFamily.value, indices.presentFamily.value]) &&
          (swapChain.value.imageSharingMode == Exclusive ==> swapChain.value.queueFamilyIndices == []) &&
          swapChain.value.preTransform == support.capabilities.currentTransform
    {
      var d := devices[physicalDevice.value];
      var swapChainSupport := d.swapChainSupport;
      var indices := FindQueueFamilies(d.queueFamilies);
      if !indices.IsComplete() {
        return Some(BadOptionalAccess);
      }
      var createInfo := BuildSwapchainCreateInfo(swapChainSupport, indices.graphicsFamily.value, indices.presentFamily.value,
                                                 framebufferWidth, framebufferHeight);
      swapChain := Some(createInfo);
      swapChainImageFormat := createInfo.imageFormat;
      swapChainExtent := createInfo.imageExtent;
      return None;
    }
  }

  /**
   * The validation-layer test at the start of createInstance: when validation
   * is enabled, every requested layer must be available.
   */
  method CheckRequestedLayers(enableValidationLayers: bool, availableLayers: seq<string>) returns (err: Option<InitError>)
    ensures err.Some? <==> enableValidationLayers && !AllNamesAvailable(VALIDATION_LAYERS, availableLayers)
    ensures err.Some? ==> err.value == MissingValidationLayers
  {
    if enableValidationLayers {
      var supported := CheckValidationLayerSupport(availableLayers, VALIDATION_LAYERS);
      if !supported {
        return Some(MissingValidationLayers);
      }
    }
    return None;
  }

  /**
   * The device pickPhysicalDevice stores has complete queue families, so
   * createLogicalDevice and createSwapChain do not fail on it with
   * BadOptionalAccess, and a non-empty format list, so createSwapChain's
   * precondition holds once the surface's extent bounds are ordered (which
   * suitability does not check).
   */
  lemma PickedDeviceIsUsable(devices: seq<PhysicalDevice>)
    requires FirstSuitable(devices).Some?
    ensures var d := devices[FirstSuitable(devices).value];
      ScannedIndices(d.queueFamilies).IsComplete() && |d.swapChainSupport.formats| > 0 &&
      0 < |d.swapChainSupport.presentModes|
    ensures var support := devices[FirstSuitable(devices).value].swapChainSupport;
      (support.capabilities.currentExtent.width == UINT32_MAX ==> ExtentBoundsOrdered(support.capabilities)) ==>
      Negotiable(support)
  {
  }
}
