/** `basicvk::DescriptorSetLayout`, `basicvk::DescriptorPool` and `basicvk::DescriptorSet`.
    The layout and the pool own their handle (move on "copy", destroy once); a set is
    allocated from a pool, is released with it, and has no destructor of its own. */
module Descriptors {
  import opened Vk
  import opened Gpu
  import opened Devices

  /** One binding of `DescriptorSetLayoutCreateInfo` (its flags are not read). */
  datatype DescriptorSetLayoutCreateInfo = DescriptorSetLayoutCreateInfo(
    binding: uint32, descriptorType: DescriptorType, shaderStage: bv32, descriptorCount: uint32)

  /** `DescriptorPoolCreateInfo` as the pool constructor reads it. */
  datatype DescriptorPoolCreateInfo = DescriptorPoolCreateInfo(maxSets: uint32, poolSizes: seq<PoolSize>)

  /** `DescriptorSetAllocateInfo`. */
  datatype DescriptorSetAllocateInfo = DescriptorSetAllocateInfo(descriptorPool: Handle, descriptorSetLayout: Handle)

  /** A uniform (or other) buffer to bind. */
  datatype BufferUpdateInfo = BufferUpdateInfo(
    buffer: Handle, range: uint64, binding: uint32, arrayElement: uint32, descriptorType: DescriptorType)

  /** A combined image sampler to bind; `imageLayout` is not read by the update. */
  datatype TextureUpdateInfo = TextureUpdateInfo(
    imageView: Handle, sampler: Handle, binding: uint32, arrayElement: uint32, imageLayout: ImageLayout)

  /** `DescriptorSetUpdateInfo`. */
  datatype DescriptorSetUpdateInfo = DescriptorSetUpdateInfo(
    bufferInfos: seq<BufferUpdateInfo>, textureInfos: seq<TextureUpdateInfo>)

  // ---------------------------------------------------------------------------
  // Layout

  /** The layout binding built from one create-info entry. */
  function BindingOf(ci: DescriptorSetLayoutCreateInfo): LayoutBinding {
    LayoutBinding(ci.binding, ci.descriptorType, ci.descriptorCount, ci.shaderStage)
  }

  /** The binding loop of the layout constructor: a vector of `|createInfos|` entries
      filled index by index. */
  method LayoutBindings(createInfos: seq<DescriptorSetLayoutCreateInfo>) returns (bindings: seq<LayoutBinding>)
    ensures |bindings| == |createInfos|
    ensures forall i :: 0 <= i < |createInfos| ==>
      bindings[i].binding == createInfos[i].binding &&
      bindings[i].descriptorType == createInfos[i].descriptorType &&
      bindings[i].descriptorCount == createInfos[i].descriptorCount &&
      bindings[i].stageFlags == createInfos[i].shaderStage
  {
    var a := new LayoutBinding[|createInfos|](_ => LayoutBinding(0, 0, 0, 0));
    var i := 0;
    while i < |createInfos|
      invariant 0 <= i <= |createInfos|
      invariant forall k :: 0 <= k < i ==> a[k] == BindingOf(createInfos[k])
    {
      a[i] := BindingOf(createInfos[i]);
      i := i + 1;
    }
    bindings := a[..];
  }

  class DescriptorSetLayout {
    const drv: Driver
    var layout: Handle

    ghost predicate Valid()
      reads this, drv
    {
      drv.Valid() && drv.Holds(this, layout, TypeDescriptorSetLayout)
    }

    /** The member initialisers: a null layout. */
    constructor Empty(drv: Driver)
      ensures this.drv == drv && layout == Null
    {
      this.drv := drv;
      layout := Null;
    }

    /** `DescriptorSetLayout(device, createInfo)`: one binding per entry, then
        `vkCreateDescriptorSetLayout`; failure throws. */
    static method Create(device: Device, createInfos: seq<DescriptorSetLayoutCreateInfo>) returns (r: Result<DescriptorSetLayout>)
      requires device.drv.Valid()
      modifies device.drv`log, device.drv`next, device.drv`live, device.drv`owner
      ensures device.drv.Valid()
      ensures r.Ok? <==> old(device.drv.Upcoming()) == VkSuccess
      ensures r.Err? ==> r.error == RuntimeError(DescriptorSetLayoutCreation)
      ensures r.Ok? ==> fresh(r.value) && r.value.Valid() && r.value.drv == device.drv
      ensures r.Ok? ==> r.value.layout.Native? && r.value.layout.id !in old(device.drv.live)
      ensures r.Ok? ==> var info := device.drv.live[r.value.layout.id];
        info.DescriptorSetLayoutInfo? && |info.bindings| == |createInfos| &&
        forall i :: 0 <= i < |createInfos| ==> info.bindings[i] == BindingOf(createInfos[i])
      ensures |device.drv.log| == old(|device.drv.log|) + 1
      ensures device.drv.KeepsAll()
    {
      var l := new DescriptorSetLayout.Empty(device.drv);
      var bindings := LayoutBindings(createInfos);
      var res, h := device.drv.Create(DescriptorSetLayoutInfo(bindings), Some(l));
      l.layout := h;
      if res != VkSuccess {
        return Err(RuntimeError(DescriptorSetLayoutCreation));
      }
      return Ok(l);
    }

    /** `DescriptorSetLayout(DescriptorSetLayout&)`: takes the handle and leaves `other`
        null. */
    constructor Copy(other: DescriptorSetLayout)
      requires other.Valid()
      modifies other, other.drv`owner
      ensures drv == other.drv && layout == old(other.layout) && other.layout == Null
      ensures Valid() && other.Valid()
      ensures other.drv.KeepsOthers(other)
    {
      drv := other.drv;
      layout := other.layout;
      new;
      other.layout := Null;
      if layout.Native? {
        drv.Transfer(layout.id, this);
      }
    }

    /** `operator=`: returns a new layout built from `other`; `*this` is not touched. */
    method Assign(other: DescriptorSetLayout) returns (r: DescriptorSetLayout)
      requires other.Valid()
      modifies other, other.drv`owner
      ensures fresh(r) && r.Valid() && other.Valid()
      ensures r.layout == old(other.layout) && other.layout == Null
      ensures this != other ==> layout == old(layout)
      ensures this != other && old(Valid()) ==> Valid()
      ensures other.drv.KeepsOthers(other)
    {
      r := new DescriptorSetLayout.Copy(other);
    }

    /** `~DescriptorSetLayout`: destroys a non-null layout and nulls it. */
    method Destroy()
      requires Valid()
      modifies this, drv`log, drv`live, drv`owner
      ensures Valid() && layout == Null
      ensures drv.log == old(drv.log) + DestroyEvents(TypeDescriptorSetLayout, old(layout))
      ensures drv.live == Drop(old(drv.live), old(layout)) && drv.owner == Drop(old(drv.owner), old(layout))
      ensures drv.KeepsOthers(this)
    {
      if layout.Native? {
        drv.Destroy(TypeDescriptorSetLayout, layout, this);
        layout := Null;
      }
    }
  }

  // ---------------------------------------------------------------------------
  // Descriptor writes

  /** The write for one buffer entry: offset 0, one descriptor, the entry's type. */
  function BufferWrite(dst: Handle, b: BufferUpdateInfo): DescriptorWrite {
    DescriptorWrite(dst, b.binding, b.arrayElement, 1, b.descriptorType,
                    None, Some(DescriptorBufferInfo(b.buffer, 0, b.range)))
  }

  /** The write for one texture entry: one combined image sampler in the shader-read-only
      layout, whatever layout the entry carries. */
  function TextureWrite(dst: Handle, t: TextureUpdateInfo): DescriptorWrite {
    DescriptorWrite(dst, t.binding, t.arrayElement, 1, DESCRIPTOR_COMBINED_IMAGE_SAMPLER,
                    Some(DescriptorImageInfo(t.sampler, t.imageView, LayoutShaderReadOnlyOptimal)), None)
  }

  /** The writes `UpdateDescriptorSet` hands to `vkUpdateDescriptorSets`: the buffer entries
      in order, then the texture entries in order. */
  function Writes(dst: Handle, info: DescriptorSetUpdateInfo): seq<DescriptorWrite> {
    seq(|info.bufferInfos|, k requires 0 <= k < |info.bufferInfos| => BufferWrite(dst, info.bufferInfos[k])) +
    seq(|info.textureInfos|, k requires 0 <= k < |info.textureInfos| => TextureWrite(dst, info.textureInfos[k]))
  }

  /** What every write of the list says, whatever the input. */
  lemma {:induction false} WritesShape(dst: Handle, info: DescriptorSetUpdateInfo)
    ensures var w, nb := Writes(dst, info), |info.bufferInfos|;
      |w| == nb + |info.textureInfos| &&
      (forall k :: 0 <= k < |w| ==> w[k].dstSet == dst && w[k].descriptorCount == 1) &&
      (forall k :: 0 <= k < nb ==>
         w[k].dstBinding == info.bufferInfos[k].binding && w[k].dstArrayElement == info.bufferInfos[k].arrayElement &&
         w[k].descriptorType == info.bufferInfos[k].descriptorType && w[k].imageInfo.None? &&
         w[k].bufferInfo == Some(DescriptorBufferInfo(info.bufferInfos[k].buffer, 0, info.bufferInfos[k].range))) &&
      (forall k :: nb <= k < |w| ==>
         w[k].dstBinding == info.textureInfos[k - nb].binding && w[k].dstArrayElement == info.textureInfos[k - nb].arrayElement &&
         w[k].descriptorType == DESCRIPTOR_COMBINED_IMAGE_SAMPLER && w[k].bufferInfo.None? &&
         w[k].imageInfo == Some(DescriptorImageInfo(info.textureInfos[k - nb].sampler, info.textureInfos[k - nb].imageView,
                                                    LayoutShaderReadOnlyOptimal)))
  {
    var w, nb := Writes(dst, info), |info.bufferInfos|;
    forall k | 0 <= k < |w|
      ensures w[k].dstSet == dst && w[k].descriptorCount == 1
    {
      if k < nb {
        assert w[k] == BufferWrite(dst, info.bufferInfos[k]);
      } else {
        assert w[k] == TextureWrite(dst, info.textureInfos[k - nb]);
      }
    }
  }

  // ---------------------------------------------------------------------------
  // Sets

  class DescriptorSet {
    const drv: Driver
    /** Whether `device_ptr` is set: the "copy" constructor leaves it empty. */
    const hasDevice: bool
    var descriptorSet: Handle

    /** The member initialisers: a null set. */
    constructor Empty(drv: Driver, hasDevice: bool)
      ensures this.drv == drv && this.hasDevice == hasDevice && descriptorSet == Null
    {
      this.drv := drv;
      this.hasDevice := hasDevice;
      descriptorSet := Null;
    }

    /** `DescriptorSet(device, allocateInfo)`: `vkAllocateDescriptorSets` of one set with the
        given layout from the given pool; failure throws. The set is freed with its pool, so
        no wrapper holds it. */
    static method Create(drv: Driver, allocateInfo: DescriptorSetAllocateInfo) returns (r: Result<DescriptorSet>)
      requires drv.Valid()
      modifies drv`log, drv`next, drv`live, drv`owner
      ensures drv.Valid() && drv.owner == old(drv.owner)
      ensures r.Ok? <==> old(drv.Upcoming()) == VkSuccess
      ensures r.Err? ==> r.error == RuntimeError(DescriptorSetAllocation)
      ensures var info := DescriptorSetInfo(allocateInfo.descriptorPool, allocateInfo.descriptorSetLayout);
        if r.Ok? then
          fresh(r.value) && r.value.drv == drv && r.value.hasDevice &&
          r.value.descriptorSet == Native(old(drv.next)) && r.value.descriptorSet.id !in old(drv.live) &&
          drv.live == old(drv.live)[r.value.descriptorSet.id := info] &&
          drv.log == old(drv.log) + [Created(r.value.descriptorSet.id, info)]
        else
          drv.live == old(drv.live) && drv.log == old(drv.log) + [CreateFailed(info, old(drv.Upcoming()))]
    {
      var s := new DescriptorSet.Empty(drv, true);
      var res, h := drv.Create(DescriptorSetInfo(allocateInfo.descriptorPool, allocateInfo.descriptorSetLayout), None);
      s.descriptorSet := h;
      if res != VkSuccess {
        return Err(RuntimeError(DescriptorSetAllocation));
      }
      return Ok(s);
    }

    /** `DescriptorSet(DescriptorSet&)`: takes the handle and nulls `other`'s; only the
        handle is initialised from `other`, so the new set has no device. */
    constructor Copy(other: DescriptorSet)
      modifies other
      ensures drv == other.drv && !hasDevice
      ensures descriptorSet == old(other.descriptorSet) && other.descriptorSet == Null
    {
      drv := other.drv;
      hasDevice := false;
      descriptorSet := other.descriptorSet;
      new;
      other.descriptorSet := Null;
    }

    /** `operator=`: returns a new set built from `other`; `*this` is not touched. */
    method Assign(other: DescriptorSet) returns (r: DescriptorSet)
      modifies other
      ensures fresh(r) && !r.hasDevice
      ensures r.descriptorSet == old(other.descriptorSet) && other.descriptorSet == Null
      ensures this != other ==> descriptorSet == old(descriptorSet)
    {
      r := new DescriptorSet.Copy(other);
    }

    /** The two write loops of `UpdateDescriptorSet`: one write per buffer entry, then one
        per texture entry, all aimed at this set. */
    method WriteList(info: DescriptorSetUpdateInfo) returns (writes: seq<DescriptorWrite>)
      ensures writes == Writes(descriptorSet, info)
      ensures |writes| == |info.bufferInfos| + |info.textureInfos|
      ensures forall k :: 0 <= k < |writes| ==> writes[k].dstSet == descriptorSet && writes[k].descriptorCount == 1
    {
      var b, t := info.bufferInfos, info.textureInfos;
      writes := [];
      var i := 0;
      while i < |b|
        invariant 0 <= i <= |b|
        invariant |writes| == i
        invariant forall k :: 0 <= k < i ==> writes[k] == BufferWrite(descriptorSet, b[k])
      {
        writes := writes + [BufferWrite(descriptorSet, b[i])];
        i := i + 1;
      }
      var j := 0;
      while j < |t|
        invariant 0 <= j <= |t|
        invariant |writes| == |b| + j
        invariant forall k :: 0 <= k < |b| ==> writes[k] == BufferWrite(descriptorSet, b[k])
        invariant forall k :: 0 <= k < j ==> writes[|b| + k] == TextureWrite(descriptorSet, t[k])
      {
        writes := writes + [TextureWrite(descriptorSet, t[j])];
        j := j + 1;
      }
      WritesShape(descriptorSet, info);
    }

    /** `UpdateDescriptorSet`: one `vkUpdateDescriptorSets` call with the write list. It
        dereferences `device_ptr`, so the set must have a device. */
    method UpdateDescriptorSet(info: DescriptorSetUpdateInfo)
      requires hasDevice
      modifies drv`log
      ensures drv.log == old(drv.log) + [Called(VkUpdateDescriptorSets(Writes(descriptorSet, info)), old(drv.Upcoming()))]
    {
      var writes := WriteList(info);
      var _ := drv.Invoke(VkUpdateDescriptorSets(writes));
    }
  }

  // ---------------------------------------------------------------------------
  // Pool

  class DescriptorPool {
    const drv: Driver
    var pool: Handle
    var sets: seq<DescriptorSet>

    ghost predicate Valid()
      reads this, drv
    {
      drv.Valid() && drv.Holds(this, pool, TypeDescriptorPool)
    }

    /** The member initialisers: a null pool with no sets. */
    constructor Empty(drv: Driver)
      ensures this.drv == drv && pool == Null && sets == []
    {
      this.drv := drv;
      pool, sets := Null, [];
    }

    /** `DescriptorPool(device, createInfo)`: `vkCreateDescriptorPool` with the maximum set
        count and the pool sizes; failure throws. */
    static method Create(device: Device, createInfo: DescriptorPoolCreateInfo) returns (r: Result<DescriptorPool>)
      requires device.drv.Valid()
      modifies device.drv`log, device.drv`next, device.drv`live, device.drv`owner
      ensures device.drv.Valid()
      ensures r.Ok? <==> old(device.drv.Upcoming()) == VkSuccess
      ensures r.Err? ==> r.error == RuntimeError(DescriptorPoolCreation)
      ensures r.Ok? ==> fresh(r.value) && r.value.Valid() && r.value.drv == device.drv && r.value.sets == []
      ensures r.Ok? ==> r.value.pool.Native? && r.value.pool.id !in old(device.drv.live)
      ensures r.Ok? ==> device.drv.live[r.value.pool.id] == DescriptorPoolInfo(createInfo.maxSets, createInfo.poolSizes)
      ensures |device.drv.log| == old(|device.drv.log|) + 1
      ensures device.drv.KeepsAll()
    {
      var p := new DescriptorPool.Empty(device.drv);
      var res, h := device.drv.Create(DescriptorPoolInfo(createInfo.maxSets, createInfo.poolSizes), Some(p));
      p.pool := h;
      if res != VkSuccess {
        return Err(RuntimeError(DescriptorPoolCreation));
      }
      return Ok(p);
    }

    /** `DescriptorPool(DescriptorPool&)`: takes the handle and the set list and leaves
        `other` with a null pool and no sets. */
    constructor Copy(other: DescriptorPool)
      requires other.Valid()
      modifies other, other.drv`owner
      ensures drv == other.drv && pool == old(other.pool) && sets == old(other.sets)
      ensures other.pool == Null && other.sets == []
      ensures Valid() && other.Valid()
      ensures other.drv.KeepsOthers(other)
    {
      drv := other.drv;
      pool, sets := other.pool, other.sets;
      new;
      other.pool, other.sets := Null, [];
      if pool.Native? {
        drv.Transfer(pool.id, this);
      }
    }

    /** `operator=`: returns a new pool built from `other`; `*this` is not touched. */
    method Assign(other: DescriptorPool) returns (r: DescriptorPool)
      requires other.Valid()
      modifies other, other.drv`owner
      ensures fresh(r) && r.Valid() && other.Valid()
      ensures r.pool == old(other.pool) && r.sets == old(other.sets)
      ensures other.pool == Null && other.sets == []
      ensures this != other ==> pool == old(pool) && sets == old(sets)
      ensures this != other && old(Valid()) ==> Valid()
      ensures other.drv.KeepsOthers(other)
    {
      r := new DescriptorPool.Copy(other);
    }

    /** `~DescriptorPool`: destroys a non-null pool (which frees its sets) and nulls it. */
    method Destroy()
      requires Valid()
      modifies this`pool, drv`log, drv`live, drv`owner
      ensures Valid() && pool == Null
      ensures drv.log == old(drv.log) + DestroyEvents(TypeDescriptorPool, old(pool))
      ensures drv.live == Drop(old(drv.live), old(pool)) && drv.owner == Drop(old(drv.owner), old(pool))
      ensures drv.KeepsOthers(this)
    {
      if pool.Native? {
        drv.Destroy(TypeDescriptorPool, pool, this);
        pool := Null;
      }
    }

    /** `allocateDescriptorSet(layout)`: a new set with `layout` from this pool, appended
        to the set list and returned. A failed allocation throws and leaves the list. */
    method AllocateDescriptorSet(layout: DescriptorSetLayout) returns (r: Result<DescriptorSet>)
      requires Valid()
      modifies this`sets, drv`log, drv`next, drv`live, drv`owner
      ensures Valid() && drv.owner == old(drv.owner)
      ensures r.Ok? <==> old(drv.Upcoming()) == VkSuccess
      ensures r.Err? ==> r.error == RuntimeError(DescriptorSetAllocation) && sets == old(sets)
      ensures r.Ok? ==> fresh(r.value) && r.value.hasDevice && r.value.drv == drv && sets == old(sets) + [r.value]
      ensures r.Ok? ==> r.value.descriptorSet.Native? && r.value.descriptorSet.id !in old(drv.live)
      ensures r.Ok? ==> drv.live == old(drv.live)[r.value.descriptorSet.id := DescriptorSetInfo(pool, layout.layout)]
      ensures |drv.log| == old(|drv.log|) + 1
      ensures drv.KeepsAll()
    {
      r := DescriptorSet.Create(drv, DescriptorSetAllocateInfo(pool, layout.layout));
      if r.Ok? {
        sets := sets + [r.value];
      }
    }

    /** `getVkDescriptorSets`, as written: the vector is constructed with `|sets|` null
        handles and the loop then appends each set's handle, so the result has twice as
        many entries as there are sets and starts with nulls. */
    method GetVkDescriptorSets() returns (res: seq<Handle>)
      ensures |res| == 2 * |sets|
      ensures forall k :: 0 <= k < |sets| ==> res[k] == Null
      ensures forall k :: 0 <= k < |sets| ==> res[|sets| + k] == sets[k].descriptorSet
    {
      res := seq(|sets|, _ => Null);
      var i := 0;
      while i < |sets|
        invariant 0 <= i <= |sets|
        invariant |res| == |sets| + i
        invariant forall k :: 0 <= k < |sets| ==> res[k] == Null
        invariant forall k :: 0 <= k < i ==> res[|sets| + k] == sets[k].descriptorSet
      {
        res := res + [sets[i].descriptorSet];
        i := i + 1;
      }
    }

    /** `getVkDescriptorSets` as intended: the handle of each set, in order. */
    method GetVkDescriptorSetsIntended() returns (res: seq<Handle>)
      ensures |res| == |sets|
      ensures forall k :: 0 <= k < |sets| ==> res[k] == sets[k].descriptorSet
    {
      res := [];
      var i := 0;
      while i < |sets|
        invariant 0 <= i <= |sets|
        invariant |res| == i
        invariant forall k :: 0 <= k < i ==> res[k] == sets[k].descriptorSet
      {
        res := res + [sets[i].descriptorSet];
        i := i + 1;
      }
    }
  }
}
