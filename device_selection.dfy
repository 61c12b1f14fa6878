/**
 * Device selection: the extension and validation-layer checks, the
 * suitability test of one physical device, and first-match selection.
 */
module DeviceSelection {
  import opened VkTypes
  import opened QueueFamilies

  /** Every wanted name occurs among the available names. */
  predicate AllNamesAvailable(wanted: seq<string>, available: seq<string>) {
    forall k :: 0 <= k < |wanted| ==> wanted[k] in available
  }

  /**
   * checkDeviceExtensionSupport: start from the set of required names, erase
   * every name the device reports, and succeed when nothing is left.
   */
  method CheckDeviceExtensionSupport(availableExtensions: seq<string>, deviceExtensions: seq<string>) returns (supported: bool)
    ensures supported <==> AllNamesAvailable(deviceExtensions, availableExtensions)
  {
    var requiredExtensions := set k | 0 <= k < |deviceExtensions| :: deviceExtensions[k];
    for e := 0 to |availableExtensions|
      invariant requiredExtensions ==
        set k | 0 <= k < |deviceExtensions| && deviceExtensions[k] !in availableExtensions[..e] :: deviceExtensions[k]
    {
      requiredExtensions := requiredExtensions - {availableExtensions[e]};
    }
    assert availableExtensions[..|availableExtensions|] == availableExtensions;
    if !AllNamesAvailable(deviceExtensions, availableExtensions) {
      var k :| 0 <= k < |deviceExtensions| && deviceExtensions[k] !in availableExtensions;
      assert deviceExtensions[k] in requiredExtensions;
    }
    supported := |requiredExtensions| == 0;
  }

  /**
   * checkValidationLayerSupport: for each requested layer, search the
   * available layers for it; fail on the first one that is missing.
   */
  method CheckValidationLayerSupport(availableLayers: seq<string>, validationLayers: seq<string>) returns (supported: bool)
    ensures supported <==> AllNamesAvailable(validationLayers, availableLayers)
  {
    for i := 0 to |validationLayers|
      invariant forall j :: 0 <= j < i ==> validationLayers[j] in availableLayers
    {
      var layerName := validationLayers[i];
      var layerFound := false;
      for k := 0 to |availableLayers|
        invariant !layerFound ==> forall m :: 0 <= m < k ==> availableLayers[m] != layerName
      {
        if layerName == availableLayers[k] {
          layerFound := true;
          break;
        }
      }
      if !layerFound {
        return false;
      }
    }
    return true;
  }

  /** The swap chain is adequate when the surface offers some format and some present mode. */
  predicate SwapChainAdequate(details: SwapChainSupportDetails) {
    |details.formats| > 0 && |details.presentModes| > 0
  }

  /** isDeviceSuitable, as a conjunction of its three clauses. */
  predicate Suitable(device: PhysicalDevice) {
    ScannedIndices(device.queueFamilies).IsComplete() &&
    AllNamesAvailable(DEVICE_EXTENSIONS, device.extensions) &&
    SwapChainAdequate(device.swapChainSupport)
  }

  /**
   * isDeviceSuitable. The swap-chain support details are queried only when
   * the extensions are supported; the query reads the probed details.
   */
  method IsDeviceSuitable(device: PhysicalDevice) returns (suitable: bool)
    ensures suitable == Suitable(device)
  {
    var indices := FindQueueFamilies(device.queueFamilies);
    var extensionsSupported := CheckDeviceExtensionSupport(device.extensions, DEVICE_EXTENSIONS);
    var swapChainAdequate := false;
    if extensionsSupported {
      var swapChainSupport := device.swapChainSupport;
      swapChainAdequate := |swapChainSupport.formats| > 0 && |swapChainSupport.presentModes| > 0;
    }
    suitable := indices.IsComplete() && extensionsSupported && swapChainAdequate;
  }

  /**
   * Suitability in terms of what was probed of the device: a graphics family,
   * a family that can present, the swap-chain extension, and a non-empty
   * format list and present-mode list.
   */
  lemma SuitableIff(device: PhysicalDevice)
    ensures Suitable(device) <==>
      (exists g :: 0 <= g < |device.queueFamilies| && device.queueFamilies[g].graphics) &&
      (exists p :: 0 <= p < |device.queueFamilies| && device.queueFamilies[p].presentSupport) &&
      "VK_KHR_swapchain" in device.extensions &&
      |device.swapChainSupport.formats| > 0 &&
      |device.swapChainSupport.presentModes| > 0
  {
    ScannedIndicesCompleteIff(device.queueFamilies);
    assert |DEVICE_EXTENSIONS| == 1 && DEVICE_EXTENSIONS[0] == "VK_KHR_swapchain";
  }

  /** pickPhysicalDevice's choice: the first suitable device in enumeration order. */
  function FirstSuitable(devices: seq<PhysicalDevice>): (r: Option<nat>)
    ensures r.Some? ==> r.value < |devices| && Suitable(devices[r.value])
    ensures r.Some? ==> forall j :: 0 <= j < r.value ==> !Suitable(devices[j])
    ensures r.None? <==> forall j :: 0 <= j < |devices| ==> !Suitable(devices[j])
  {
    FirstIndex(devices, Suitable)
  }
}
