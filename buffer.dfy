/** `basicvk::Buffer` (a host-visible buffer with its memory) and `basicvk::Texture` (a
    sampled image with its memory, view and sampler). Both move on "copy", return a new
    object from `operator=`, and release each non-null handle once in their destructor. */
module Buffers {
  import opened Vk
  import opened Gpu
  import opened PhysicalDevices
  import opened Devices

  /** `BufferOptions`. */
  datatype BufferOptions = BufferOptions(usage: bv32, sharingMode: nat)

  /** The memory properties every buffer's memory is requested with. */
  const BUFFER_MEMORY_PROPERTIES: bv32 := MEMORY_HOST_VISIBLE | MEMORY_HOST_COHERENT

  /** `info` allocates the size `req` asks for, from the least memory type that `req`
      allows and that has every flag of `properties`. */
  predicate Fits(info: CreateInfo, req: MemoryRequirements, memoryTypes: seq<bv32>, properties: bv32)
  {
    info.MemoryInfo? && info.allocationSize == req.size && |memoryTypes| <= 32 &&
    FirstSuitable(memoryTypes, req.memoryTypeBits, properties, info.memoryTypeIndex)
  }

  /** How the memory step of `Buffer` ends, given the memory types, what the buffer
      requires and the driver's results from log position `at` on: no suitable type, then
      a failed `vkAllocateMemory`, then a failed `vkBindBufferMemory`. */
  function BufferMemoryOutcome(outcome: nat -> VkResult, memoryTypes: seq<bv32>, req: MemoryRequirements, at: nat): Outcome
    requires |memoryTypes| <= 32
  {
    if NoneSuitable(memoryTypes, req.memoryTypeBits, BUFFER_MEMORY_PROPERTIES) then Fail(RuntimeError(NoSuitableMemoryType))
    else if outcome(at) != VkSuccess then Fail(RuntimeError(BufferAllocation))
    else if outcome(at + 1) != VkSuccess then Fail(RuntimeError(BufferBinding))
    else Pass
  }

  /** How the `Buffer` constructor ends: a failed `vkCreateBuffer` at `at`, else the
      memory step from `at + 1`. */
  function BufferOutcome(outcome: nat -> VkResult, memoryTypes: seq<bv32>, req: MemoryRequirements, at: nat): Outcome
    requires |memoryTypes| <= 32
  {
    if outcome(at) != VkSuccess then Fail(RuntimeError(BufferCreation))
    else BufferMemoryOutcome(outcome, memoryTypes, req, at + 1)
  }

  class Buffer {
    const drv: Driver
    var buffer: Handle
    var bufferMemory: Handle
    var bufferSize: uint64

    ghost predicate Valid()
      reads this, drv
    {
      drv.Valid() && drv.Holds(this, buffer, TypeBuffer) && drv.Holds(this, bufferMemory, TypeDeviceMemory)
    }

    /** The member initialisers: null handles and the requested size. */
    constructor Empty(drv: Driver, size: uint64)
      ensures this.drv == drv && buffer == Null && bufferMemory == Null && bufferSize == size
    {
      this.drv := drv;
      buffer, bufferMemory, bufferSize := Null, Null, size;
    }

    /** `Buffer(device, options, size)`: creates the buffer, allocates memory of a type the
        buffer allows that is host visible and host coherent, and binds it. Each failure
        throws; what was created before the failure is not released. */
    static method Create(device: Device, options: BufferOptions, size: uint64) returns (r: Result<Buffer>)
      requires device.drv.Valid()
      requires |device.physical.gpu.memoryTypes| <= 32
      modifies device.drv`log, device.drv`next, device.drv`live, device.drv`owner
      ensures device.drv.Valid()
      ensures var o := BufferOutcome(device.drv.outcome, device.physical.gpu.memoryTypes,
                                     device.drv.requirements(BufferInfo(size, options.usage, options.sharingMode)), old(|device.drv.log|));
              (r.Ok? <==> o.Pass?) && (r.Err? ==> o == Fail(r.error))
      ensures r.Err? && r.error == RuntimeError(BufferCreation) <==> old(device.drv.Upcoming()) != VkSuccess
      ensures r.Err? ==> r.error in {RuntimeError(BufferCreation), RuntimeError(NoSuitableMemoryType),
                                     RuntimeError(BufferAllocation), RuntimeError(BufferBinding)}
      ensures r.Ok? ==> fresh(r.value) && r.value.Valid() && r.value.drv == device.drv && r.value.bufferSize == size
      ensures r.Ok? ==> (r.value.buffer.Native? && device.drv.live[r.value.buffer.id] == BufferInfo(size, options.usage, options.sharingMode))
      ensures r.Ok? ==> r.value.bufferMemory.Native? &&
                          Fits(device.drv.live[r.value.bufferMemory.id], device.drv.requirements(device.drv.live[r.value.buffer.id]),
                               device.physical.gpu.memoryTypes, BUFFER_MEMORY_PROPERTIES)
      ensures r.Ok? ==> device.drv.log == old(device.drv.log) + [
                          Created(r.value.buffer.id, BufferInfo(size, options.usage, options.sharingMode)),
                          Created(r.value.bufferMemory.id, device.drv.live[r.value.bufferMemory.id]),
                          Called(VkBindMemory(r.value.buffer, r.value.bufferMemory), VkSuccess)]
      ensures device.drv.KeepsAll()
    {
      var b := new Buffer.Empty(device.drv, size);
      var o := b.CreateHandle(options);
      if o.Fail? {
        return Err(o.error);
      }
      o := b.AllocateMemory(device.physical);
      if o.Fail? {
        return Err(o.error);
      }
      return Ok(b);
    }

    /** The `vkCreateBuffer` step of the constructor. */
    method CreateHandle(options: BufferOptions) returns (o: Outcome)
      requires Valid() && buffer == Null && bufferMemory == Null
      modifies this`buffer, drv`log, drv`next, drv`live, drv`owner
      ensures Valid() && bufferMemory == Null
      ensures o.Pass? <==> old(drv.Upcoming()) == VkSuccess
      ensures o.Fail? ==> o.error == RuntimeError(BufferCreation)
      ensures o.Pass? ==> buffer.Native? && drv.live[buffer.id] == BufferInfo(bufferSize, options.usage, options.sharingMode)
      ensures o.Pass? ==> drv.log == old(drv.log) + [Created(buffer.id, BufferInfo(bufferSize, options.usage, options.sharingMode))]
      ensures |drv.log| == old(|drv.log|) + 1
      ensures drv.KeepsAll()
    {
      var res, h := drv.Create(BufferInfo(bufferSize, options.usage, options.sharingMode), Some(this));
      buffer := h;
      o := if res == VkSuccess then Pass else Fail(RuntimeError(BufferCreation));
    }

    /** The memory step of the constructor: `findMemoryType`, `vkAllocateMemory` of the size
        the buffer requires, and `vkBindBufferMemory`. */
    method AllocateMemory(physical: PhysicalDevice) returns (o: Outcome)
      requires Valid() && buffer.Native? && bufferMemory == Null && |physical.gpu.memoryTypes| <= 32
      modifies this`bufferMemory, drv`log, drv`next, drv`live, drv`owner
      ensures Valid()
      ensures o == BufferMemoryOutcome(drv.outcome, physical.gpu.memoryTypes, drv.requirements(drv.live[buffer.id]), old(|drv.log|))
      ensures o.Fail? ==> o.error in {RuntimeError(NoSuitableMemoryType),
                                      RuntimeError(BufferAllocation), RuntimeError(BufferBinding)}
      ensures o.Pass? ==> bufferMemory.Native? &&
                          Fits(drv.live[bufferMemory.id], drv.requirements(drv.live[buffer.id]), physical.gpu.memoryTypes, BUFFER_MEMORY_PROPERTIES)
      ensures o.Pass? ==> drv.log == old(drv.log) + [Created(bufferMemory.id, drv.live[bufferMemory.id]),
                                                     Called(VkBindMemory(buffer, bufferMemory), VkSuccess)]
      ensures drv.KeepsAll()
    {
      var req := drv.requirements(drv.live[buffer.id]);
      var typeIndex := physical.FindMemoryType(req.memoryTypeBits, BUFFER_MEMORY_PROPERTIES);
      if typeIndex.Err? {
        return Fail(typeIndex.error);
      }
      var res, m := drv.Create(MemoryInfo(req.size, typeIndex.value), Some(this));
      bufferMemory := m;
      if res != VkSuccess {
        return Fail(RuntimeError(BufferAllocation));
      }
      assert !NoneSuitable(physical.gpu.memoryTypes, req.memoryTypeBits, BUFFER_MEMORY_PROPERTIES);
      var bres := drv.Invoke(VkBindMemory(buffer, m));
      if bres != VkSuccess {
        return Fail(RuntimeError(BufferBinding));
      }
      return Pass;
    }

    /** `Buffer(Buffer&)` and `Buffer(Buffer&&)`: take the handles and the size and leave
        `other` with null handles and size 0. */
    constructor Copy(other: Buffer)
      requires other.Valid()
      modifies other, other.drv`owner
      ensures drv == other.drv && buffer == old(other.buffer) && bufferMemory == old(other.bufferMemory)
      ensures bufferSize == old(other.bufferSize)
      ensures other.buffer == Null && other.bufferMemory == Null && other.bufferSize == 0
      ensures Valid() && other.Valid()
      ensures other.drv.KeepsOthers(other)
    {
      drv := other.drv;
      buffer, bufferMemory, bufferSize := other.buffer, other.bufferMemory, other.bufferSize;
      new;
      other.buffer, other.bufferMemory, other.bufferSize := Null, Null, 0;
      if buffer.Native? {
        drv.Transfer(buffer.id, this);
      }
      if bufferMemory.Native? {
        drv.Transfer(bufferMemory.id, this);
      }
    }

    /** Both `operator=` overloads: return a new `Buffer` built from `other`; `*this` is
        not touched. */
    method Assign(other: Buffer) returns (r: Buffer)
      requires other.Valid()
      modifies other, other.drv`owner
      ensures fresh(r) && r.Valid() && other.Valid()
      ensures r.buffer == old(other.buffer) && r.bufferMemory == old(other.bufferMemory) && r.bufferSize == old(other.bufferSize)
      ensures other.buffer == Null && other.bufferMemory == Null && other.bufferSize == 0
      ensures this != other ==> buffer == old(buffer) && bufferMemory == old(bufferMemory) && bufferSize == old(bufferSize)
      ensures this != other && old(Valid()) ==> Valid()
      ensures other.drv.KeepsOthers(other)
    {
      r := new Buffer.Copy(other);
    }

    /** `~Buffer`: destroys the buffer, then frees the memory, each only if non-null, and
        nulls each; a second run does nothing. */
    method Destroy()
      requires Valid()
      modifies this, drv`log, drv`live, drv`owner
      ensures Valid() && buffer == Null && bufferMemory == Null && bufferSize == old(bufferSize)
      ensures drv.log == old(drv.log) + DestroyEvents(TypeBuffer, old(buffer)) + DestroyEvents(TypeDeviceMemory, old(bufferMemory))
      ensures drv.live == Drop(Drop(old(drv.live), old(buffer)), old(bufferMemory))
      ensures drv.KeepsOthers(this)
    {
      if buffer.Native? {
        drv.Destroy(TypeBuffer, buffer, this);
        buffer := Null;
      }
      if bufferMemory.Native? {
        drv.Destroy(TypeDeviceMemory, bufferMemory, this);
        bufferMemory := Null;
      }
    }

    /** `mapMemory(data, size)`: maps the first `size` bytes of the memory, copies the first
        `size` bytes of `data` there and unmaps; a failed map throws. The assertion
        `size <= bufferSize` is a precondition. */
    method MapMemory(data: seq<bv8>, size: uint64) returns (o: Outcome)
      requires size <= bufferSize && size <= |data|
      modifies drv`log, drv`memory
      ensures o == if old(drv.Upcoming()) == VkSuccess then Pass else Fail(RuntimeError(MemoryMapping))
      ensures o.Pass? ==> drv.log == old(drv.log) + [Called(VkMapMemory(bufferMemory, 0, size), VkSuccess),
                                                     Called(VkUnmapMemory(bufferMemory), old(drv.outcome(|drv.log| + 1)))]
      ensures o.Pass? ==> |drv.Contents(bufferMemory)| >= size && drv.Contents(bufferMemory)[..size] == data[..size]
      ensures o.Pass? ==> size <= |old(drv.Contents(bufferMemory))| ==> drv.Contents(bufferMemory)[size..] == old(drv.Contents(bufferMemory))[size..]
      ensures o.Pass? ==> forall m :: m != bufferMemory ==> drv.Contents(m) == old(drv.Contents(m))
      ensures o.Fail? ==> drv.log == old(drv.log) + [Called(VkMapMemory(bufferMemory, 0, size), old(drv.Upcoming()))] && drv.memory == old(drv.memory)
    {
      var res := drv.Invoke(VkMapMemory(bufferMemory, 0, size));
      if res != VkSuccess {
        return Fail(RuntimeError(MemoryMapping));
      }
      drv.WriteMapped(bufferMemory, data[..size]);
      var _ := drv.Invoke(VkUnmapMemory(bufferMemory));
      return Pass;
    }
  }

  /** `TextureOptions`. */
  datatype TextureOptions = TextureOptions(
    width: uint32, height: uint32, format: Format, imageLayout: ImageLayout, tiling: ImageTiling,
    usage: bv32, properties: bv32, useMipmapping: bool)

  /** How the memory step of `Texture` ends: no suitable type, then a failed
      `vkAllocateMemory` at `at`; the bind that follows never fails the step. */
  function ImageMemoryOutcome(outcome: nat -> VkResult, memoryTypes: seq<bv32>, req: MemoryRequirements,
                              properties: bv32, at: nat): Outcome
    requires |memoryTypes| <= 32
  {
    if NoneSuitable(memoryTypes, req.memoryTypeBits, properties) then Fail(RuntimeError(NoSuitableMemoryType))
    else if outcome(at) != VkSuccess then Fail(RuntimeError(ImageAllocation))
    else Pass
  }

  /** How the first half of the `Texture` constructor ends: a failed `vkCreateImage` at
      `at`, else the memory step from `at + 1`. */
  function BackedImageOutcome(outcome: nat -> VkResult, memoryTypes: seq<bv32>, req: MemoryRequirements,
                              properties: bv32, at: nat): Outcome
    requires |memoryTypes| <= 32
  {
    if outcome(at) != VkSuccess then Fail(RuntimeError(ImageCreation))
    else ImageMemoryOutcome(outcome, memoryTypes, req, properties, at + 1)
  }

  /** How the second half ends: a failed `vkCreateImageView` at `at`, then a failed
      `vkCreateSampler` at `at + 1`. */
  function ViewAndSamplerOutcome(outcome: nat -> VkResult, at: nat): Outcome
  {
    if outcome(at) != VkSuccess then Fail(RuntimeError(TextureViewCreation))
    else if outcome(at + 1) != VkSuccess then Fail(RuntimeError(SamplerCreation))
    else Pass
  }

  /** How the `Texture` constructor ends: the first half from `at`, which spends three
      results when it succeeds, then the second half. */
  function TextureOutcome(outcome: nat -> VkResult, memoryTypes: seq<bv32>, req: MemoryRequirements,
                          properties: bv32, at: nat): Outcome
    requires |memoryTypes| <= 32
  {
    var first := BackedImageOutcome(outcome, memoryTypes, req, properties, at);
    if first.Fail? then first else ViewAndSamplerOutcome(outcome, at + 3)
  }

  class Texture {
    const drv: Driver
    var image: Handle
    var imageMemory: Handle
    var imageView: Handle
    var sampler: Handle
    var width: uint32
    var height: uint32
    const format: Format
    var imageLayout: ImageLayout
    const mipLevels: uint32

    ghost predicate Valid()
      reads this, drv
    {
      drv.Valid() && drv.Holds(this, image, TypeImage) && drv.Holds(this, imageMemory, TypeDeviceMemory) &&
      drv.Holds(this, imageView, TypeImageView) && drv.Holds(this, sampler, TypeSampler)
    }

    /** The member initialisers: null handles, the option size, layout and format, and the
        given level count. */
    constructor Empty(drv: Driver, options: TextureOptions, mipLevels: uint32)
      ensures this.drv == drv && image == Null && imageMemory == Null && imageView == Null && sampler == Null
      ensures width == options.width && height == options.height && format == options.format
      ensures imageLayout == options.imageLayout && this.mipLevels == mipLevels
    {
      this.drv := drv;
      image, imageMemory, imageView, sampler := Null, Null, Null, Null;
      width, height, format := options.width, options.height, options.format;
      imageLayout, this.mipLevels := options.imageLayout, mipLevels;
    }

    /** `Texture(device, options)`: creates a single-level image, allocates memory with the
        option properties, binds it (ignoring the result), then creates an sRGB view and a
        sampler. Each failure throws; what was created before it is not released. The
        header's `mipLevels` and `imageLayout` are never set by the source: here they are
        the `mipLevels` argument and the option layout. */
    static method Create(device: Device, options: TextureOptions, mipLevels: uint32) returns (r: Result<Texture>)
      requires device.drv.Valid()
      requires |device.physical.gpu.memoryTypes| <= 32
      modifies device.drv`log, device.drv`next, device.drv`live, device.drv`owner
      ensures device.drv.Valid()
      ensures var o := TextureOutcome(device.drv.outcome, device.physical.gpu.memoryTypes,
                                      device.drv.requirements(ImageInfo(options.width, options.height, options.format, options.tiling, options.usage, 1)),
                                      options.properties, old(|device.drv.log|));
              (r.Ok? <==> o.Pass?) && (r.Err? ==> o == Fail(r.error))
      ensures r.Err? && r.error == RuntimeError(ImageCreation) <==> old(device.drv.Upcoming()) != VkSuccess
      ensures r.Err? ==> r.error in {RuntimeError(ImageCreation), RuntimeError(NoSuitableMemoryType),
                                     RuntimeError(ImageAllocation), RuntimeError(TextureViewCreation),
                                     RuntimeError(SamplerCreation)}
      ensures r.Ok? ==> fresh(r.value) && r.value.Valid() && r.value.drv == device.drv
      ensures r.Ok? ==> r.value.width == options.width && r.value.height == options.height && r.value.format == options.format
      ensures r.Ok? ==> r.value.imageLayout == options.imageLayout && r.value.mipLevels == mipLevels
      ensures r.Ok? ==> r.value.image.Native? && r.value.imageView.Native? && r.value.sampler.Native?
      ensures r.Ok? ==> device.drv.live[r.value.image.id] ==
                          ImageInfo(options.width, options.height, options.format, options.tiling, options.usage, 1)
      ensures r.Ok? ==> r.value.imageMemory.Native? &&
                          Fits(device.drv.live[r.value.imageMemory.id], device.drv.requirements(device.drv.live[r.value.image.id]),
                               device.physical.gpu.memoryTypes, options.properties)
      ensures r.Ok? ==> device.drv.live[r.value.imageView.id] == ImageViewInfo(r.value.image, FORMAT_R8G8B8A8_SRGB)
      ensures r.Ok? ==> device.drv.live[r.value.sampler.id] == SamplerInfo
      ensures device.drv.KeepsAll()
    {
      var t := new Texture.Empty(device.drv, options, mipLevels);
      var o := t.CreateBackedImage(options, device.physical);
      if o.Fail? {
        return Err(o.error);
      }
      o := t.CreateViewAndSampler();
      if o.Fail? {
        return Err(o.error);
      }
      return Ok(t);
    }

    /** The first half of the constructor: the image and its memory. */
    method CreateBackedImage(options: TextureOptions, physical: PhysicalDevice) returns (o: Outcome)
      requires Valid() && image == Null && imageMemory == Null && |physical.gpu.memoryTypes| <= 32
      modifies this`image, this`imageMemory, drv`log, drv`next, drv`live, drv`owner
      ensures Valid() && imageView == old(imageView) && sampler == old(sampler)
      ensures width == old(width) && height == old(height) && imageLayout == old(imageLayout)
      ensures o == BackedImageOutcome(drv.outcome, physical.gpu.memoryTypes,
                                      drv.requirements(ImageInfo(options.width, options.height, options.format, options.tiling, options.usage, 1)),
                                      options.properties, old(|drv.log|))
      ensures o.Pass? ==> |drv.log| == old(|drv.log|) + 3
      ensures o.Fail? && o.error == RuntimeError(ImageCreation) <==> old(drv.Upcoming()) != VkSuccess
      ensures o.Fail? ==> o.error in {RuntimeError(ImageCreation), RuntimeError(NoSuitableMemoryType), RuntimeError(ImageAllocation)}
      ensures o.Pass? ==> image.Native? &&
                          drv.live[image.id] == ImageInfo(options.width, options.height, options.format, options.tiling, options.usage, 1)
      ensures o.Pass? ==> imageMemory.Native? &&
                          Fits(drv.live[imageMemory.id], drv.requirements(drv.live[image.id]), physical.gpu.memoryTypes, options.properties)
      ensures drv.KeepsAll()
    {
      o := CreateImage(options);
      if o.Pass? {
        o := AllocateMemory(physical, options.properties);
      }
    }

    /** The second half of the constructor: the view of the image and the sampler. */
    method CreateViewAndSampler() returns (o: Outcome)
      requires Valid() && image.Native? && imageView == Null && sampler == Null
      modifies this`imageView, this`sampler, drv`log, drv`next, drv`live, drv`owner
      ensures Valid() && image == old(image) && imageMemory == old(imageMemory)
      ensures width == old(width) && height == old(height) && imageLayout == old(imageLayout)
      ensures o == ViewAndSamplerOutcome(drv.outcome, old(|drv.log|))
      ensures o.Fail? ==> o.error in {RuntimeError(TextureViewCreation), RuntimeError(SamplerCreation)}
      ensures o.Pass? ==> imageView.Native? && drv.live[imageView.id] == ImageViewInfo(image, FORMAT_R8G8B8A8_SRGB)
      ensures o.Pass? ==> sampler.Native? && drv.live[sampler.id] == SamplerInfo
      ensures drv.KeepsAll()
    {
      o := CreateView();
      if o.Pass? {
        o := CreateSampler();
      }
    }

    /** The `vkCreateImage` step of the constructor: a 2D image of one level. */
    method CreateImage(options: TextureOptions) returns (o: Outcome)
      requires Valid() && image == Null
      modifies this`image, drv`log, drv`next, drv`live, drv`owner
      ensures Valid() && imageMemory == old(imageMemory) && imageView == old(imageView) && sampler == old(sampler)
      ensures o.Pass? <==> old(drv.Upcoming()) == VkSuccess
      ensures o.Fail? ==> o.error == RuntimeError(ImageCreation)
      ensures o.Pass? ==> image.Native? &&
                          drv.live[image.id] == ImageInfo(options.width, options.height, options.format, options.tiling, options.usage, 1)
      ensures |drv.log| == old(|drv.log|) + 1
      ensures drv.KeepsAll()
    {
      var res, h := drv.Create(ImageInfo(options.width, options.height, options.format, options.tiling, options.usage, 1), Some(this));
      image := h;
      o := if res == VkSuccess then Pass else Fail(RuntimeError(ImageCreation));
    }

    /** The memory step of the constructor: `findMemoryType`, `vkAllocateMemory` of the size
        the image requires, and `vkBindImageMemory`, whose result is not looked at. */
    method AllocateMemory(physical: PhysicalDevice, properties: bv32) returns (o: Outcome)
      requires Valid() && image.Native? && imageMemory == Null && |physical.gpu.memoryTypes| <= 32
      modifies this`imageMemory, drv`log, drv`next, drv`live, drv`owner
      ensures Valid()
      ensures o == ImageMemoryOutcome(drv.outcome, physical.gpu.memoryTypes, drv.requirements(drv.live[image.id]), properties, old(|drv.log|))
      ensures o.Fail? ==> o.error in {RuntimeError(NoSuitableMemoryType), RuntimeError(ImageAllocation)}
      ensures o.Pass? ==> imageMemory.Native? &&
                          Fits(drv.live[imageMemory.id], drv.requirements(drv.live[image.id]), physical.gpu.memoryTypes, properties)
      ensures o.Pass? ==> var bind := Called(VkBindMemory(image, imageMemory), old(drv.outcome(|drv.log| + 1)));
                          drv.log == old(drv.log) + [Created(imageMemory.id, drv.live[imageMemory.id]), bind]
      ensures drv.KeepsAll()
    {
      var req := drv.requirements(drv.live[image.id]);
      var typeIndex := physical.FindMemoryType(req.memoryTypeBits, properties);
      if typeIndex.Err? {
        return Fail(typeIndex.error);
      }
      var res, m := drv.Create(MemoryInfo(req.size, typeIndex.value), Some(this));
      imageMemory := m;
      if res != VkSuccess {
        return Fail(RuntimeError(ImageAllocation));
      }
      assert !NoneSuitable(physical.gpu.memoryTypes, req.memoryTypeBits, properties);
      var _ := drv.Invoke(VkBindMemory(image, m));
      return Pass;
    }

    /** The `vkCreateImageView` step of the constructor: an sRGB colour view of level 0. */
    method CreateView() returns (o: Outcome)
      requires Valid() && image.Native? && imageView == Null
      modifies this`imageView, drv`log, drv`next, drv`live, drv`owner
      ensures Valid()
      ensures o.Pass? <==> old(drv.Upcoming()) == VkSuccess
      ensures o.Fail? ==> o.error == RuntimeError(TextureViewCreation)
      ensures o.Pass? ==> imageView.Native? && drv.live[imageView.id] == ImageViewInfo(image, FORMAT_R8G8B8A8_SRGB)
      ensures |drv.log| == old(|drv.log|) + 1
      ensures drv.KeepsAll()
    {
      var res, h := drv.Create(ImageViewInfo(image, FORMAT_R8G8B8A8_SRGB), Some(this));
      imageView := h;
      o := if res == VkSuccess then Pass else Fail(RuntimeError(TextureViewCreation));
    }

    /** The `vkCreateSampler` step of the constructor (its filter settings are not modelled). */
    method CreateSampler() returns (o: Outcome)
      requires Valid() && sampler == Null
      modifies this`sampler, drv`log, drv`next, drv`live, drv`owner
      ensures Valid()
      ensures o.Pass? <==> old(drv.Upcoming()) == VkSuccess
      ensures o.Fail? ==> o.error == RuntimeError(SamplerCreation)
      ensures o.Pass? ==> sampler.Native? && drv.live[sampler.id] == SamplerInfo
      ensures |drv.log| == old(|drv.log|) + 1
      ensures drv.KeepsAll()
    {
      var res, h := drv.Create(SamplerInfo, Some(this));
      sampler := h;
      o := if res == VkSuccess then Pass else Fail(RuntimeError(SamplerCreation));
    }

    /** `Texture(Texture&)` and `Texture(Texture&&)`: take the four handles and the size and
        leave `other` with null handles and size 0 by 0. */
    constructor Copy(other: Texture)
      requires other.Valid()
      modifies other, other.drv`owner
      ensures drv == other.drv
      ensures image == old(other.image) && imageMemory == old(other.imageMemory)
      ensures imageView == old(other.imageView) && sampler == old(other.sampler)
      ensures width == old(other.width) && height == old(other.height)
      ensures format == other.format && imageLayout == old(other.imageLayout) && mipLevels == other.mipLevels
      ensures other.image == Null && other.imageMemory == Null && other.imageView == Null && other.sampler == Null
      ensures other.width == 0 && other.height == 0 && other.imageLayout == old(other.imageLayout)
      ensures Valid() && other.Valid()
      ensures other.drv.KeepsOthers(other)
    {
      drv := other.drv;
      image, imageMemory, imageView, sampler := other.image, other.imageMemory, other.imageView, other.sampler;
      width, height := other.width, other.height;
      format, imageLayout, mipLevels := other.format, other.imageLayout, other.mipLevels;
      new;
      other.image, other.imageMemory, other.imageView, other.sampler := Null, Null, Null, Null;
      other.width, other.height := 0, 0;
      ghost var hs, ts := [image, imageMemory, imageView, sampler], [TypeImage, TypeDeviceMemory, TypeImageView, TypeSampler];
      drv.TransferAll(hs, ts, other, this);
      assert drv.Holds(this, hs[0], ts[0]) && drv.Holds(this, hs[1], ts[1]) && drv.Holds(this, hs[2], ts[2]) && drv.Holds(this, hs[3], ts[3]);
    }

    /** Both `operator=` overloads: return a new `Texture` built from `other`; `*this` is
        not touched. */
    method Assign(other: Texture) returns (r: Texture)
      requires other.Valid()
      modifies other, other.drv`owner
      ensures fresh(r) && r.Valid() && other.Valid()
      ensures r.image == old(other.image) && r.imageMemory == old(other.imageMemory)
      ensures r.imageView == old(other.imageView) && r.sampler == old(other.sampler)
      ensures other.image == Null && other.imageMemory == Null && other.imageView == Null && other.sampler == Null
      ensures this != other ==> image == old(image) && imageMemory == old(imageMemory) &&
                                imageView == old(imageView) && sampler == old(sampler)
      ensures this != other && old(Valid()) ==> Valid()
      ensures other.drv.KeepsOthers(other)
    {
      r := new Texture.Copy(other);
    }

    /** `~Texture`: releases image, memory, view and sampler in that order, each only if
        non-null, and nulls each; a second run does nothing. */
    method Destroy()
      requires Valid()
      modifies this, drv`log, drv`live, drv`owner
      ensures Valid() && image == Null && imageMemory == Null && imageView == Null && sampler == Null
      ensures drv.log == old(drv.log) + DestroyEvents(TypeImage, old(image)) + DestroyEvents(TypeDeviceMemory, old(imageMemory)) +
                         DestroyEvents(TypeImageView, old(imageView)) + DestroyEvents(TypeSampler, old(sampler))
      ensures drv.live == Drop(Drop(Drop(Drop(old(drv.live), old(image)), old(imageMemory)), old(imageView)), old(sampler))
      ensures drv.KeepsOthers(this)
    {
      ReleaseImage();
      ReleaseView();
    }

    /** The first half of the destructor: the image, then its memory. */
    method ReleaseImage()
      requires Valid()
      modifies this`image, this`imageMemory, drv`log, drv`live, drv`owner
      ensures Valid() && image == Null && imageMemory == Null
      ensures drv.log == old(drv.log) + DestroyEvents(TypeImage, old(image)) + DestroyEvents(TypeDeviceMemory, old(imageMemory))
      ensures drv.live == Drop(Drop(old(drv.live), old(image)), old(imageMemory))
      ensures drv.KeepsOthers(this)
    {
      if image.Native? {
        drv.Destroy(TypeImage, image, this);
        image := Null;
      }
      if imageMemory.Native? {
        drv.Destroy(TypeDeviceMemory, imageMemory, this);
        imageMemory := Null;
      }
    }

    /** The second half of the destructor: the view, then the sampler. */
    method ReleaseView()
      requires Valid()
      modifies this`imageView, this`sampler, drv`log, drv`live, drv`owner
      ensures Valid() && imageView == Null && sampler == Null
      ensures drv.log == old(drv.log) + DestroyEvents(TypeImageView, old(imageView)) + DestroyEvents(TypeSampler, old(sampler))
      ensures drv.live == Drop(Drop(old(drv.live), old(imageView)), old(sampler))
      ensures drv.KeepsOthers(this)
    {
      if imageView.Native? {
        drv.Destroy(TypeImageView, imageView, this);
        imageView := Null;
      }
      if sampler.Native? {
        drv.Destroy(TypeSampler, sampler, this);
        sampler := Null;
      }
    }
  }
}
