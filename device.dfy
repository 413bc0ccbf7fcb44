/** `basicvk::Device` and `basicvk::Queue`: the logical device, created with one queue per
    distinct queue family the physical device selected, and the queues handed out from it. */
module Devices {
  import opened Vk
  import opened Gpu
  import opened PhysicalDevices

  /** A `Queue`: a `VkQueue` and the index of the family it belongs to. */
  datatype Queue = Queue(handle: QueueHandle, familyIndex: uint32)

  /** `Queue()`: the null queue, whose family index is `-1` stored in a `uint32_t`. */
  function DefaultQueue(): (q: Queue)
    ensures q.handle == NullQueue && q.familyIndex == UINT32_MAX
  {
    Queue(NullQueue, ToUint32(-1))
  }

  /** The queue of `family` that `vkGetDeviceQueue` returns for queue index 0. */
  function FamilyQueue(family: Option<uint32>): (q: Queue)
    ensures family.Some? ==> q.handle == DeviceQueue(family.value, 0) && q.familyIndex == family.value
    ensures family.None? ==> q == DefaultQueue()
  {
    if family.Some? then Queue(DeviceQueue(family.value, 0), family.value) else DefaultQueue()
  }

  /** The `std::set` of queue families the constructor builds: those that are set. */
  function UniqueQueueFamilies(indices: QueueFamilyIndices): (s: set<uint32>)
    ensures forall x :: x in s <==> Some(x) == indices.graphicsFamily || Some(x) == indices.presentFamily
    ensures |s| <= 2
    ensures indices.graphicsFamily.Some? && indices.graphicsFamily == indices.presentFamily ==> |s| == 1
  {
    (if indices.graphicsFamily.Some? then {indices.graphicsFamily.value} else {}) +
    (if indices.presentFamily.Some? then {indices.presentFamily.value} else {})
  }

  /** A non-empty finite set of integers has a least element. */
  lemma {:induction false} HasMinimum(s: set<uint32>) returns (m: uint32)
    requires s != {}
    ensures m in s && forall y :: y in s ==> m <= y
    decreases |s|
  {
    var x :| x in s;
    if s == {x} {
      m := x;
    } else {
      var rest := s - {x};
      assert rest != {} by {
        var z :| z in s && z != x;
        assert z in rest;
      }
      var mr := HasMinimum(rest);
      m := if x < mr then x else mr;
      assert forall y :: y in s ==> y == x || y in rest;
    }
  }

  /** The families named by a list of queue-create entries. */
  function FamiliesOf(infos: seq<QueueCreateInfo>): set<uint32> {
    set k | 0 <= k < |infos| :: infos[k].queueFamilyIndex
  }

  /** Appending an entry adds its family. */
  lemma FamiliesOfAppend(infos: seq<QueueCreateInfo>, info: QueueCreateInfo)
    ensures FamiliesOf(infos + [info]) == FamiliesOf(infos) + {info.queueFamilyIndex}
  {
    var after := infos + [info];
    assert after[|infos|] == info;
    forall x | x in FamiliesOf(infos)
      ensures x in FamiliesOf(after)
    {
      var k :| 0 <= k < |infos| && infos[k].queueFamilyIndex == x;
      assert after[k] == infos[k];
    }
  }

  /** The entries name their families in strictly increasing order. */
  predicate Ascending(infos: seq<QueueCreateInfo>) {
    forall j, k :: 0 <= j < k < |infos| ==> infos[j].queueFamilyIndex < infos[k].queueFamilyIndex
  }

  /** Every entry names a family below every element of `s`. */
  predicate Below(infos: seq<QueueCreateInfo>, s: set<uint32>) {
    forall k, y :: 0 <= k < |infos| && y in s ==> infos[k].queueFamilyIndex < y
  }

  /** Every entry asks for one queue. */
  predicate OneQueueEach(infos: seq<QueueCreateInfo>) {
    forall k :: 0 <= k < |infos| ==> infos[k].queueCount == 1
  }

  /** Appending the least remaining family keeps the entries ascending and below the rest. */
  lemma AppendLeast(infos: seq<QueueCreateInfo>, remaining: set<uint32>, m: uint32)
    requires m in remaining && forall y :: y in remaining ==> m <= y
    requires Ascending(infos) && Below(infos, remaining) && OneQueueEach(infos)
    ensures var after := infos + [QueueCreateInfo(m, 1)];
      Ascending(after) && Below(after, remaining - {m}) && OneQueueEach(after)
  {
    var after := infos + [QueueCreateInfo(m, 1)];
    assert OneQueueEach(after) by {
      forall k | 0 <= k < |after|
        ensures after[k].queueCount == 1
      {
        if k < |infos| {
          assert after[k] == infos[k];
        }
      }
    }
    forall j, k | 0 <= j < k < |after|
      ensures after[j].queueFamilyIndex < after[k].queueFamilyIndex
    {
      assert after[j] == infos[j];
      if k < |infos| {
        assert after[k] == infos[k];
      }
    }
    forall k, y | 0 <= k < |after| && y in remaining - {m}
      ensures after[k].queueFamilyIndex < y
    {
      if k < |infos| {
        assert after[k] == infos[k];
      }
    }
  }

  /** The queue-create loop of the constructor: one entry with one queue per family of
      `families`, visited in increasing order as a `std::set` iterates. */
  method QueueCreateInfos(families: set<uint32>) returns (infos: seq<QueueCreateInfo>)
    ensures FamiliesOf(infos) == families && |infos| == |families|
    ensures OneQueueEach(infos) && Ascending(infos)
  {
    infos := [];
    var remaining := families;
    while remaining != {}
      invariant remaining <= families
      invariant |infos| + |remaining| == |families|
      invariant FamiliesOf(infos) == families - remaining
      invariant OneQueueEach(infos) && Ascending(infos) && Below(infos, remaining)
      decreases |remaining|
    {
      ghost var least := HasMinimum(remaining);
      var m :| m in remaining && forall y :: y in remaining ==> m <= y;
      FamiliesOfAppend(infos, QueueCreateInfo(m, 1));
      AppendLeast(infos, remaining, m);
      assert families - (remaining - {m}) == (families - remaining) + {m};
      infos := infos + [QueueCreateInfo(m, 1)];
      remaining := remaining - {m};
    }
  }

  class Device {
    const drv: Driver
    const physical: PhysicalDevice
    var device: Handle

    ghost predicate Valid()
      reads this, drv
    {
      drv.Valid() && drv.Holds(this, device, TypeDevice)
    }

    /** The member initialisers: a null device. */
    constructor Empty(drv: Driver, physical: PhysicalDevice)
      ensures this.drv == drv && this.physical == physical && device == Null
    {
      this.drv := drv;
      this.physical := physical;
      device := Null;
    }

    /** `Device(physicalDevice)`: one queue-create entry per distinct selected family, then
        `vkCreateDevice`; failure throws. */
    static method Create(drv: Driver, physical: PhysicalDevice) returns (r: Result<Device>)
      requires drv.Valid()
      modifies drv`log, drv`next, drv`live, drv`owner
      ensures drv.Valid()
      ensures r.Ok? <==> old(drv.Upcoming()) == VkSuccess
      ensures r.Err? ==> r.error == RuntimeError(DeviceCreation)
      ensures r.Ok? ==> fresh(r.value) && r.value.Valid() && r.value.drv == drv && r.value.physical == physical
      ensures r.Ok? ==> r.value.device.Native? && drv.live[r.value.device.id].DeviceInfo?
      ensures r.Ok? ==> var infos := drv.live[r.value.device.id].queueCreateInfos;
        FamiliesOf(infos) == UniqueQueueFamilies(physical.queueFamilyIndices) &&
        |infos| == |UniqueQueueFamilies(physical.queueFamilyIndices)|
      ensures |drv.log| == old(|drv.log|) + 1
      ensures drv.KeepsAll()
    {
      var d := new Device.Empty(drv, physical);
      var infos := QueueCreateInfos(UniqueQueueFamilies(physical.queueFamilyIndices));
      var res, h := drv.Create(DeviceInfo(infos), Some(d));
      d.device := h;
      if res != VkSuccess {
        return Err(RuntimeError(DeviceCreation));
      }
      return Ok(d);
    }

    /** `Device(Device&)`: takes the device handle and leaves `other` null. */
    constructor Copy(other: Device)
      requires other.Valid()
      modifies other, other.drv`owner
      ensures drv == other.drv && physical == other.physical
      ensures device == old(other.device) && other.device == Null
      ensures Valid() && other.Valid()
      ensures other.drv.KeepsOthers(other)
    {
      drv := other.drv;
      physical := other.physical;
      device := other.device;
      new;
      other.device := Null;
      if device.Native? {
        drv.Transfer(device.id, this);
      }
    }

    /** `operator=`: returns a new `Device` built from `other`; `*this` is not touched. */
    method Assign(other: Device) returns (r: Device)
      requires other.Valid()
      modifies other, other.drv`owner
      ensures fresh(r) && r.Valid() && other.Valid()
      ensures r.device == old(other.device) && other.device == Null
      ensures this != other ==> device == old(device)
      ensures this != other && old(Valid()) ==> Valid()
      ensures other.drv.KeepsOthers(other)
    {
      r := new Device.Copy(other);
    }

    /** `~Device`: destroys a non-null device and nulls it; on a null device it does
        nothing, so running it twice destroys once. */
    method Destroy()
      requires Valid()
      modifies this, drv`log, drv`live, drv`owner
      ensures Valid() && device == Null
      ensures drv.log == old(drv.log) + DestroyEvents(TypeDevice, old(device))
      ensures drv.live == Drop(old(drv.live), old(device)) && drv.owner == Drop(old(drv.owner), old(device))
      ensures drv.KeepsOthers(this)
    {
      if device.Native? {
        drv.Destroy(TypeDevice, device, this);
        device := Null;
      }
    }

    /** `waitIdle`: `vkDeviceWaitIdle`; failure throws. */
    method WaitIdle() returns (o: Outcome)
      modifies drv`log, drv`signaled, drv`pending
      ensures o == if old(drv.Upcoming()) == VkSuccess then Pass else Fail(RuntimeError(DeviceWaitIdle))
      ensures o.Pass? ==> drv.pending == [] && drv.signaled == old(drv.signaled) + FencesOf(old(drv.pending))
      ensures o.Fail? ==> drv.signaled == old(drv.signaled) && drv.pending == old(drv.pending)
      ensures drv.log == old(drv.log) + [Called(VkDeviceWaitIdle, old(drv.Upcoming()))]
    {
      var res := drv.WaitIdle(VkDeviceWaitIdle);
      o := if res == VkSuccess then Pass else Fail(RuntimeError(DeviceWaitIdle));
    }

    /** `waitForFences`: `vkWaitForFences` on `fence`, whose result is dropped; the ghost
        `result` only names it. */
    method WaitForFences(fence: Handle) returns (ghost result: VkResult)
      modifies drv`log, drv`signaled, drv`pending, drv`failedWaits
      ensures drv.log == old(drv.log) + [Called(VkWaitForFences(fence), result)]
      ensures result == WaitResult(old(drv.pending), old(drv.signaled), fence, old(drv.Upcoming()))
      ensures Waited(old(drv.pending), old(drv.signaled), fence, result, drv.pending, drv.signaled)
      ensures drv.failedWaits == if result == VkSuccess then old(drv.failedWaits) else old(drv.failedWaits) + 1
    {
      result := drv.WaitForFence(fence);
    }

    /** `getGraphicQueue`: queue 0 of the graphics family, or `Queue()` if there is none. */
    function GraphicQueue(): (q: Queue)
      ensures physical.queueFamilyIndices.graphicsFamily.Some? ==>
        q == Queue(DeviceQueue(physical.queueFamilyIndices.graphicsFamily.value, 0), physical.queueFamilyIndices.graphicsFamily.value)
      ensures physical.queueFamilyIndices.graphicsFamily.None? ==> q.handle == NullQueue && q.familyIndex == 0xFFFF_FFFF
    {
      FamilyQueue(physical.queueFamilyIndices.graphicsFamily)
    }

    /** `getPresentQueue`: queue 0 of the present family, or `Queue()` if there is none. */
    function PresentQueue(): (q: Queue)
      ensures physical.queueFamilyIndices.presentFamily.Some? ==>
        q == Queue(DeviceQueue(physical.queueFamilyIndices.presentFamily.value, 0), physical.queueFamilyIndices.presentFamily.value)
      ensures physical.queueFamilyIndices.presentFamily.None? ==> q.handle == NullQueue && q.familyIndex == 0xFFFF_FFFF
    {
      FamilyQueue(physical.queueFamilyIndices.presentFamily)
    }
  }

  /** A queue handed out by the device belongs to a family the device was created with. */
  lemma QueueFamilyIsCreated(indices: QueueFamilyIndices)
    ensures FamilyQueue(indices.graphicsFamily).handle != NullQueue ==>
      FamilyQueue(indices.graphicsFamily).familyIndex in UniqueQueueFamilies(indices)
    ensures FamilyQueue(indices.presentFamily).handle != NullQueue ==>
      FamilyQueue(indices.presentFamily).familyIndex in UniqueQueueFamilies(indices)
  {
  }
}
