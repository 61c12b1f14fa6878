# Device selection and swap-chain negotiation of a Vulkan "hello triangle"

This project models, in Dafny, the decision logic that the hello-triangle
application (`main.cpp`) runs at start-up before it can draw: which queue
families of a GPU to use, whether a GPU is suitable, which GPU to pick, which
queues to request from the logical device, and how the swap chain is
negotiated with the window surface (surface format, present mode, extent,
image count, image sharing mode).

Everything the program asks the Vulkan driver or GLFW is an input value:

- A physical device is a `PhysicalDevice`. It holds its queue families, the
  names of its extensions and its swap-chain support details (surface
  capabilities, format list, present-mode list).
- A queue family is a pair `(graphics, presentSupport)`. The first says
  whether `VK_QUEUE_GRAPHICS_BIT` is set. The second stands for the answer of
  `vkGetPhysicalDeviceSurfaceSupportKHR`.
- The framebuffer size from `glfwGetFramebufferSize` is a pair of 32-bit
  signed parameters.
- The device list from `vkEnumeratePhysicalDevices` is the `devices` field
  of the application object.

Vulkan enumerations keep their numeric values from `vulkan_core.h`
(`VK_FORMAT_B8G8R8A8_SRGB` = 50, `VK_COLOR_SPACE_SRGB_NONLINEAR_KHR` = 0,
`VK_PRESENT_MODE_MAILBOX_KHR` = 1, `VK_PRESENT_MODE_FIFO_KHR` = 2), so a list
may hold any code a driver reports. `uint32_t` is the subset type `U32`.

Modules, one per part of the program's start-up:

- `VkTypes` (vk_types.dfy): integer widths, constants, probed data, and a generic first-match search.
- `SwapChain` (swap_chain.dfy): `chooseSwapSurfaceFormat`, `chooseSwapPresentMode`,
  `chooseSwapExtent`, the image-count clamp, and the sharing-mode decision of `createSwapChain`.
- `QueueFamilies` (queue_families.dfy): `QueueFamilyIndices`, `findQueueFamilies`,
  and the per-family queue requests of `createLogicalDevice`.
- `DeviceSelection` (device_selection.dfy): `checkDeviceExtensionSupport`,
  `checkValidationLayerSupport`, `isDeviceSuitable`, and the first-match rule of `pickPhysicalDevice`.
- `Application` (application.dfy): the class `HelloTriangleApplication` with the
  members that `pickPhysicalDevice`, `createLogicalDevice` and `createSwapChain` assign.
  Exceptions become an `InitError` result.

Points where the code is followed closely:

- `chooseSwapExtent` compares only `currentExtent.width` with `UINT32_MAX`. A
  current extent whose height alone is the sentinel is returned as it is.
- The framebuffer size is an `int` cast to `uint32_t`. A negative value wraps
  to a large one before it is clamped (`ToU32`).
- `minImageCount + 1` is computed in `uint32_t`. For `minImageCount == UINT32_MAX`
  it wraps to 0, and 0 is what gets requested. So the image-count bounds are
  stated for `minImageCount < UINT32_MAX`, and the wrap is stated as its own clause.
- `findQueueFamilies` overwrites an index every time a family qualifies and
  stops at the first family after which both are set. So the graphics index
  is the last graphics family seen before the stop, not always the first one.
- `findQueueFamilies` counts families with a signed `int i` (main.cpp:910, 933), which overflows past `INT32_MAX`. The model therefore takes lists of at most `0x7FFF_FFFF` families (`QueueFamilyList`).
- The unique queue families are a `std::set`. Its iteration order is
  ascending, so the queue requests come in ascending family order.
- `.value()` on an empty optional throws `bad_optional_access`. In
  `createLogicalDevice` and `createSwapChain` this becomes the error `BadOptionalAccess`.
- `pickPhysicalDevice` reports "no suitable GPU" by testing whether the member
  is still null after the loop. So its outcome depends on the member's old value.
- `chooseSwapSurfaceFormat` indexes `[0]` without a check, and `std::clamp` is
  undefined when `min > max`. Both appear as preconditions (`requires`), and
  device selection guarantees the first one for the chosen device.

## Model

| member | source | states |
|---|---|---|
| VkTypes.ToU32 | main.cpp:822-825 | the `static_cast<uint32_t>` of a GLFW `int` is the value itself when non-negative and the value plus 2^32 when negative |
| SwapChain.ChooseSwapSurfaceFormat | main.cpp:782-793 | the result is an element of the (non-empty) list; it is the B8G8R8A8_SRGB / SRGB_NONLINEAR format whenever the list contains it, and element 0 unchanged when it does not |
| SwapChain.ChooseSwapPresentMode | main.cpp:796-807 | the result is MAILBOX exactly when MAILBOX is listed, and FIFO otherwise, whether or not FIFO is listed |
| SwapChain.Clamp | main.cpp:827-828 | `std::clamp` with `lo <= hi` returns a value in `[lo, hi]` that is the point of the interval nearest to `v`, and `v` itself when `v` is in range |
| SwapChain.ChooseSwapExtent | main.cpp:809-832 | a non-sentinel current width returns `currentExtent` exactly; with the sentinel each dimension of the cast framebuffer size is clamped independently into `[minImageExtent, maxImageExtent]`, and a size already in range is returned unchanged |
| SwapChain.ImageCount | main.cpp:350-356 | the count is exactly `minImageCount + 1` when there is no maximum (0) or the maximum is at least that, and exactly `maxImageCount` when a non-zero maximum is below it; so with a maximum at or above the minimum it lies in `[minImageCount, maxImageCount]`, and it never exceeds `minImageCount + 1`; at `minImageCount == UINT32_MAX` the uint32 sum wraps to 0 |
| SwapChain.BuildSwapchainCreateInfo | main.cpp:342-386 | the create info carries the chosen format, colour space, present mode, extent and image count and the current transform; sharing is CONCURRENT over `[graphics, present]` exactly when the two family indices differ, otherwise EXCLUSIVE with no index list |
| SwapChain.ChooseSwapExtentIdempotent | main.cpp:813-831 | in the sentinel case, feeding the chosen extent back as the framebuffer size gives the same extent |
| SwapChain.PreferredFormatFoundLater | main.cpp:784-790 | `[(R8G8B8A8_UNORM, SRGB_NONLINEAR), (B8G8R8A8_SRGB, SRGB_NONLINEAR)]` yields the second entry |
| SwapChain.FifoWhenMailboxMissing | main.cpp:798-806 | `[IMMEDIATE]` yields FIFO although FIFO is not listed; `[FIFO, MAILBOX]` yields MAILBOX |
| SwapChain.FixedExtentScenario | main.cpp:345-356 | capabilities `{min 2, max 0, current 800x600}` with only BGRA/sRGB and FIFO give 3 images at 800x600 in BGRA/sRGB and FIFO, whatever the framebuffer size |
| SwapChain.SentinelExtentScenario | main.cpp:813-831 | with the sentinel, framebuffer 1000x700 inside `[1,4096]` is kept, 5000x(-1) clamps to 4096x4096 (the -1 wraps to UINT32_MAX), and `min = max = 2` gives 2 images |
| QueueFamilies.LastSupporting | main.cpp:911-926 | the index kept for a capability after visiting n families is the last family below n with it, and there is none exactly when no family below n has it |
| QueueFamilies.QueueFamilyIndices.IsComplete | main.cpp:60-63 | holds exactly when both the graphics and the present index hold a value |
| QueueFamilies.ScanEnd | main.cpp:928-933 | the scan stops just after the first family at which both indices are set, and runs to the end of the list when that never happens |
| QueueFamilies.ScannedIndices | main.cpp:900-937 | every index returned names a family with that capability at or before the stop, and no later family before the stop has it; an index is missing only when no family before the stop has that capability |
| QueueFamilies.FindQueueFamilies | main.cpp:900-937 | the loop with its `break` returns exactly the indices of the stopped scan |
| QueueFamilies.CompleteAfterPrefix | main.cpp:55-64 | once the indices are complete after a prefix of the families they stay complete for every longer prefix |
| QueueFamilies.ScannedIndicesCompleteIff | main.cpp:900-937 | `isComplete()` holds for the result exactly when some family supports graphics and some family can present |
| QueueFamilies.LastGraphicsFamilyWins | main.cpp:911-931 | families `[graphics only, graphics + present]` give graphics index 1, not the first graphics family 0 |
| QueueFamilies.ScanStopsEarly | main.cpp:928-931 | families `[both, both]` give `(0, 0)`: the scan stops after the first family |
| QueueFamilies.UniqueQueueFamilies | main.cpp:300-303 | the set `{graphicsFamily, presentFamily}` holds exactly those two values and iterates in strictly ascending order |
| QueueFamilies.BuildQueueCreateInfos | main.cpp:299-315 | one request per distinct family index (1 when the indices are equal, 2 otherwise), covering exactly `{graphics, present}` in ascending order, each with `queueCount` 1 and priority 1.0 |
| DeviceSelection.CheckDeviceExtensionSupport | main.cpp:881-898 | erasing every available name from the set of required names leaves it empty exactly when every required extension is available |
| DeviceSelection.CheckValidationLayerSupport | main.cpp:955-983 | the nested search returns true exactly when every requested layer name is among the available layers |
| DeviceSelection.IsDeviceSuitable | main.cpp:864-879 | the result is the conjunction of complete queue families, supported device extensions and a non-empty format list and present-mode list |
| DeviceSelection.SuitableIff | main.cpp:864-879 | a device is suitable exactly when it has a graphics family, a presenting family, `VK_KHR_swapchain`, some surface format and some present mode |
| DeviceSelection.FirstSuitable | main.cpp:279-286 | the chosen index names a suitable device with no suitable device before it, and there is none exactly when no device is suitable |
| Application.HelloTriangleApplication.constructor | main.cpp:85-110 | the application starts with a null physical device and no logical device, queues or swap chain |
| Application.HelloTriangleApplication.PickPhysicalDevice | main.cpp:265-292 | no devices fails with "no GPUs"; otherwise the member becomes the first suitable device, "no suitable GPU" is raised exactly when the member is still null, and the call returns normally whenever the member is non-null afterwards (also when it was already set and no device is suitable) |
| Application.HelloTriangleApplication.CreateLogicalDevice | main.cpp:294-337 | with complete indices the device is created with the required extensions and one request per distinct family, in ascending family order, each for one queue of priority 1.0, and the graphics and present queues are queue 0 of their families; otherwise `.value()` fails and nothing changes |
| Application.HelloTriangleApplication.CreateSwapChain | main.cpp:339-402 | with complete indices the swap chain is created with the negotiated format, colour space, present mode, extent and image count, the current transform, and sharing CONCURRENT over `[graphics, present]` exactly when the indices differ, otherwise EXCLUSIVE with no index list; the chosen format and extent are stored in the members |
| Application.PickedDeviceIsUsable | main.cpp:864-879 | the device `pickPhysicalDevice` chooses has complete queue families (so the two create steps do not fail with `BadOptionalAccess`) and non-empty format and present-mode lists; given ordered extent bounds in the sentinel case, which suitability does not check, it meets `createSwapChain`'s precondition |
| Application.CheckRequestedLayers | main.cpp:188-191 | with validation enabled, instance creation fails exactly when some layer of `VALIDATION_LAYERS` is not available; with it disabled, it never fails here |

## Left out

- Window and surface: GLFW initialisation, window creation, event polling and `glfwCreateWindowSurface` (main.cpp:112-120, 139-148, 257-263) are calls into a foreign library. The surface shows up only as the present-support flag of each queue family.
- Instance and debug set-up (main.cpp:185-255, 33-53, 939-953, 1005-1011) are left out. Only the `enableValidationLayers && !checkValidationLayerSupport()` test at its start is modelled (`CheckRequestedLayers`); `enableValidationLayers`, fixed by `NDEBUG` at compile time, is a parameter.
- The start-up sequence `initVulkan` (main.cpp:122-137) is not modelled as a method. Its order shows only in the `physicalDevice.Some?` precondition of `CreateLogicalDevice` and `CreateSwapChain`; the steps it calls after `createSwapChain` are left out with the rest of the pipeline.
- Driver failures of `vkCreateDevice` and `vkCreateSwapchainKHR` (main.cpp:330-333, 390-393) are not modelled: creation always succeeds.
- The swap-chain images are not modelled. The program re-queries the image count the driver actually allocated (main.cpp:394-398), and that count is decided by the driver.
- Constant fields of the create infos are not modelled: array layers, image usage, composite alpha, clipping, old swap chain, device features. They involve no decision.
- `querySwapChainSupport` (main.cpp:835-862) is a read of the probed `swapChainSupport` details. It has no side effect in the model, so the fact that `isDeviceSuitable` runs it only when extensions are supported shows in the code's shape, but no contract can observe it.
- `readFile`, pipeline construction, render pass, framebuffers, command pool and buffer, `recordCommandBuffer`, `drawFrame` with its fence and semaphores, `cleanup` and `main` (main.cpp:150-183, 404-778, 985-1030) are left out. They are I/O, float-valued fixed configuration, CPU/GPU concurrency whose meaning lives in the driver, and teardown.
- The queue priority is the `float` 1.0f, modelled as the real number 1.0.
- DeviceSelection.CheckDeviceExtensionSupport: takes the required names as a parameter rather than reading the global `deviceExtensions`. `IsDeviceSuitable` passes `DEVICE_EXTENSIONS`.
- DeviceSelection.CheckValidationLayerSupport: takes the requested layer names as a parameter rather than reading the global `validationLayers`. `CheckRequestedLayers` passes `VALIDATION_LAYERS`.
