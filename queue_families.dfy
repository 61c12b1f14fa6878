/**
 * Queue-family discovery (findQueueFamilies, QueueFamilyIndices) and the queue
 * requests createLogicalDevice derives from the two indices it finds.
 */
module QueueFamilies {
  import opened VkTypes

  datatype QueueFamilyIndices = QueueFamilyIndices(graphicsFamily: Option<U32>, presentFamily: Option<U32>) {
    predicate IsComplete() {
      graphicsFamily.Some? && presentFamily.Some?
    }
  }

  datatype Capability = Graphics | Present

  predicate Supports(family: QueueFamily, c: Capability) {
    match c
    case Graphics => family.graphics
    case Present => family.presentSupport
  }

  /** The last index below n whose family has capability c. */
  function LastSupporting(families: QueueFamilyList, n: nat, c: Capability): (r: Option<U32>)
    requires n <= |families|
    ensures r.Some? ==> r.value < n && Supports(families[r.value], c)
    ensures r.Some? ==> forall j :: r.value < j < n ==> !Supports(families[j], c)
    ensures r.None? ==> forall j :: 0 <= j < n ==> !Supports(families[j], c)
  {
    if n == 0 then None
    else if Supports(families[n - 1], c) then Some(n - 1)
    else LastSupporting(families, n - 1, c)
  }

  /**
   * The indices findQueueFamilies holds after visiting the first n families:
   * each loop iteration overwrites an index whenever its family qualifies.
   */
  function IndicesAfter(families: QueueFamilyList, n: nat): QueueFamilyIndices
    requires n <= |families|
  {
    QueueFamilyIndices(LastSupporting(families, n, Graphics), LastSupporting(families, n, Present))
  }

  /**
   * Where the scan that starts at index i stops: just past the first family
   * after which both indices are set, or at the end of the list.
   */
  function ScanEnd(families: QueueFamilyList, i: nat): (n: nat)
    requires i <= |families|
    ensures i <= n <= |families|
    ensures forall m :: i < m < n ==> !IndicesAfter(families, m).IsComplete()
    ensures n < |families| ==> IndicesAfter(families, n).IsComplete()
    decreases |families| - i
  {
    if i == |families| then i
    else if IndicesAfter(families, i + 1).IsComplete() then i + 1
    else ScanEnd(families, i + 1)
  }

  /**
   * What findQueueFamilies returns: each index names a family with that
   * capability, and is the last such family the scan saw before stopping.
   */
  function ScannedIndices(families: QueueFamilyList): (r: QueueFamilyIndices)
    ensures r.graphicsFamily.Some? ==>
      r.graphicsFamily.value < ScanEnd(families, 0) && families[r.graphicsFamily.value].graphics
    ensures r.presentFamily.Some? ==>
      r.presentFamily.value < ScanEnd(families, 0) && families[r.presentFamily.value].presentSupport
    ensures r.graphicsFamily.Some? ==>
      forall j :: r.graphicsFamily.value < j < ScanEnd(families, 0) ==> !families[j].graphics
    ensures r.presentFamily.Some? ==>
      forall j :: r.presentFamily.value < j < ScanEnd(families, 0) ==> !families[j].presentSupport
    ensures r.graphicsFamily.None? ==> forall j :: 0 <= j < ScanEnd(families, 0) ==> !families[j].graphics
    ensures r.presentFamily.None? ==> forall j :: 0 <= j < ScanEnd(families, 0) ==> !families[j].presentSupport
  {
    IndicesAfter(families, ScanEnd(families, 0))
  }

  /** findQueueFamilies: a scan over the families that breaks once both indices are set. */
  method FindQueueFamilies(families: QueueFamilyList) returns (indices: QueueFamilyIndices)
    ensures indices == ScannedIndices(families)
  {
    indices := QueueFamilyIndices(None, None);
    var i := 0;
    while i < |families|
      invariant 0 <= i <= |families|
      invariant indices == IndicesAfter(families, i)
      invariant ScanEnd(families, i) == ScanEnd(families, 0)
    {
      if families[i].graphics {
        indices := indices.(graphicsFamily := Some(i));
      }
      if families[i].presentSupport {
        indices := indices.(presentFamily := Some(i));
      }
      assert indices == IndicesAfter(families, i + 1);
      if indices.IsComplete() {
        break;
      }
      i := i + 1;
    }
  }

  /** Once a prefix yields both indices, every longer prefix does too. */
  lemma CompleteAfterPrefix(families: QueueFamilyList, m: nat, n: nat)
    requires m <= n <= |families|
    requires IndicesAfter(families, m).IsComplete()
    ensures IndicesAfter(families, n).IsComplete()
  {
  }

  /**
   * The search succeeds exactly when some family supports graphics and some
   * family (possibly another one) can present to the surface.
   */
  lemma ScannedIndicesCompleteIff(families: QueueFamilyList)
    ensures ScannedIndices(families).IsComplete() <==>
      (exists g :: 0 <= g < |families| && families[g].graphics) &&
      (exists p :: 0 <= p < |families| && families[p].presentSupport)
  {
  }

  /**
   * The scan stops at the first family where both indices become set, so the
   * graphics index is the latest graphics family seen, not the first one.
   */
  lemma LastGraphicsFamilyWins()
    ensures ScannedIndices([QueueFamily(true, false), QueueFamily(true, true)]) == QueueFamilyIndices(Some(1), Some(1))
  {
  }

  /** Families after the stopping point are never looked at. */
  lemma ScanStopsEarly()
    ensures ScannedIndices([QueueFamily(true, true), QueueFamily(true, true)]) == QueueFamilyIndices(Some(0), Some(0))
  {
  }

  /** VkDeviceQueueCreateInfo: one queue of priority 1.0 from a family. */
  datatype DeviceQueueCreateInfo = DeviceQueueCreateInfo(queueFamilyIndex: U32, queueCount: nat, queuePriority: real)

  /** The std::set of the two family indices, in its (ascending) iteration order. */
  function UniqueQueueFamilies(graphicsFamily: U32, presentFamily: U32): (s: seq<U32>)
    ensures forall x :: x in s <==> x == graphicsFamily || x == presentFamily
    ensures forall i, j :: 0 <= i < j < |s| ==> s[i] < s[j]
  {
    if graphicsFamily < presentFamily then [graphicsFamily, presentFamily]
    else if presentFamily < graphicsFamily then [presentFamily, graphicsFamily]
    else [graphicsFamily]
  }

  function RequestedFamilies(queueCreateInfos: seq<DeviceQueueCreateInfo>): set<U32> {
    set k | 0 <= k < |queueCreateInfos| :: queueCreateInfos[k].queueFamilyIndex
  }

  /**
   * The queue requests createLogicalDevice builds: one per distinct family
   * index, in ascending order, each for a single queue of priority 1.0.
   */
  method BuildQueueCreateInfos(graphicsFamily: U32, presentFamily: U32) returns (queueCreateInfos: seq<DeviceQueueCreateInfo>)
    ensures |queueCreateInfos| == if graphicsFamily == presentFamily then 1 else 2
    ensures forall k :: 0 <= k < |queueCreateInfos| ==>
      queueCreateInfos[k].queueCount == 1 && queueCreateInfos[k].queuePriority == 1.0
    ensures RequestedFamilies(queueCreateInfos) == {graphicsFamily, presentFamily}
    ensures forall i, j :: 0 <= i < j < |queueCreateInfos| ==>
      queueCreateInfos[i].queueFamilyIndex < queueCreateInfos[j].queueFamilyIndex
  {
    var uniqueQueueFamilies := UniqueQueueFamilies(graphicsFamily, presentFamily);
    var queuePriority := 1.0;
    queueCreateInfos := [];
    for k := 0 to |uniqueQueueFamilies|
      invariant |queueCreateInfos| == k
      invariant forall j :: 0 <= j < k ==>
        queueCreateInfos[j] == DeviceQueueCreateInfo(uniqueQueueFamilies[j], 1, queuePriority)
    {
      queueCreateInfos := queueCreateInfos + [DeviceQueueCreateInfo(uniqueQueueFamilies[k], 1, queuePriority)];
    }
    assert forall k :: 0 <= k < |queueCreateInfos| ==> queueCreateInfos[k].queueFamilyIndex == uniqueQueueFamilies[k];
    assert graphicsFamily in uniqueQueueFamilies && presentFamily in uniqueQueueFamilies;
  }
}
