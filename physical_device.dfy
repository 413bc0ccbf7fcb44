/** `basicvk::PhysicalDevice`: the first Vulkan-capable GPU, the queue families chosen on
    it, and the searches over its memory types and format properties. Nothing changes it
    after construction, so it is a value. */
module PhysicalDevices {
  import opened Vk

  /** What `vkGetPhysicalDeviceQueueFamilyProperties` and `vkGetPhysicalDeviceSurfaceSupportKHR`
      report for one queue family: graphics capability, and whether it can present to the
      window's surface. */
  datatype QueueFamily = QueueFamily(graphics: bool, presentSupport: bool)

  /** `VkFormatProperties` (buffer features omitted). */
  datatype FormatProperties = FormatProperties(linearTilingFeatures: bv32, optimalTilingFeatures: bv32)

  /** What the driver reports about one GPU: its queue families, the property flags of each
      memory type, and the format properties of the formats it knows (an unknown format has
      no features). */
  datatype Gpu = Gpu(queueFamilies: seq<QueueFamily>, memoryTypes: seq<bv32>, formats: map<Format, FormatProperties>)

  datatype QueueFamilyIndices = QueueFamilyIndices(graphicsFamily: Option<uint32>, presentFamily: Option<uint32>)

  /** Bit `i` of a 32-bit mask, as `1 << i`. */
  function Bit(i: nat): bv32
    requires i < 32
  {
    (1 as bv32) << i
  }

  /** Memory type `i` is allowed by `typeFilter` and has every flag of `properties`. */
  predicate SuitableMemoryType(memoryTypes: seq<bv32>, typeFilter: bv32, properties: bv32, i: nat)
    requires i < |memoryTypes| <= 32
  {
    typeFilter & Bit(i) != 0 && memoryTypes[i] & properties == properties
  }

  /** `i` is the least suitable memory type index: the one `findMemoryType` picks. */
  predicate FirstSuitable(memoryTypes: seq<bv32>, typeFilter: bv32, properties: bv32, i: nat)
    requires |memoryTypes| <= 32
  {
    i < |memoryTypes| && SuitableMemoryType(memoryTypes, typeFilter, properties, i) &&
    forall j :: 0 <= j < i ==> !SuitableMemoryType(memoryTypes, typeFilter, properties, j)
  }

  /** No memory type is suitable. */
  predicate NoneSuitable(memoryTypes: seq<bv32>, typeFilter: bv32, properties: bv32)
    requires |memoryTypes| <= 32
  {
    forall j :: 0 <= j < |memoryTypes| ==> !SuitableMemoryType(memoryTypes, typeFilter, properties, j)
  }

  /** `format` has every feature of `features` for `tiling`; any tiling other than linear
      and optimal supports nothing. */
  predicate SupportsFormat(formats: map<Format, FormatProperties>, format: Format, tiling: ImageTiling, features: bv32)
  {
    var props := if format in formats then formats[format] else FormatProperties(0, 0);
    (tiling == TILING_LINEAR && props.linearTilingFeatures & features == features) ||
    (tiling == TILING_OPTIMAL && props.optimalTilingFeatures & features == features)
  }

  /** What the queue-family loop of the constructor reports, as written. With a window,
      each reported family has the property asked for and is the last family that has it,
      and a family is reported exactly when one has it. Without a window no present family
      is reported, and the graphics family, reported exactly when some family has graphics,
      is always 0. */
  ghost predicate SelectedAsWritten(families: seq<QueueFamily>, hasWindow: bool, indices: QueueFamilyIndices)
  {
    (hasWindow ==> indices.graphicsFamily.Some? ==>
      indices.graphicsFamily.value < |families| && families[indices.graphicsFamily.value].graphics &&
      forall j :: indices.graphicsFamily.value < j < |families| ==> !families[j].graphics) &&
    (hasWindow ==> indices.presentFamily.Some? ==>
      indices.presentFamily.value < |families| && families[indices.presentFamily.value].presentSupport &&
      forall j :: indices.presentFamily.value < j < |families| ==> !families[j].presentSupport) &&
    (indices.graphicsFamily.None? <==> forall j :: 0 <= j < |families| ==> !families[j].graphics) &&
    (hasWindow ==> (indices.presentFamily.None? <==> forall j :: 0 <= j < |families| ==> !families[j].presentSupport)) &&
    (!hasWindow ==> indices.presentFamily.None?) &&
    (!hasWindow ==> indices.graphicsFamily.Some? ==> indices.graphicsFamily.value == 0)
  }

  /** The description above fixes the loop's answer: two answers that both meet it are
      the same. */
  lemma SelectedAsWrittenUnique(families: seq<QueueFamily>, hasWindow: bool, a: QueueFamilyIndices, b: QueueFamilyIndices)
    requires SelectedAsWritten(families, hasWindow, a) && SelectedAsWritten(families, hasWindow, b)
    ensures a == b
  {
    if hasWindow && a.graphicsFamily.Some? && b.graphicsFamily.Some? {
      var x, y := a.graphicsFamily.value, b.graphicsFamily.value;
      assert !(x < y) && !(y < x);
    }
    if hasWindow && a.presentFamily.Some? && b.presentFamily.Some? {
      var x, y := a.presentFamily.value, b.presentFamily.value;
      assert !(x < y) && !(y < x);
    }
  }

  /** The queue-family loop of the constructor, as written: `graphicsFamily` and
      `presentFamily` take the index `i`, but `i` only advances (and present support is
      only queried) when there is a window. */
  method SelectQueueFamilies(families: seq<QueueFamily>, hasWindow: bool) returns (indices: QueueFamilyIndices)
    requires |families| <= 0x7FFF_FFFF
    ensures SelectedAsWritten(families, hasWindow, indices)
  {
    indices := QueueFamilyIndices(None, None);
    var i: nat := 0;
    var k := 0;
    while k < |families|
      invariant 0 <= k <= |families|
      invariant i == if hasWindow then k else 0
      invariant hasWindow ==> indices.graphicsFamily.Some? ==>
        indices.graphicsFamily.value < k && families[indices.graphicsFamily.value].graphics &&
        forall j :: indices.graphicsFamily.value < j < k ==> !families[j].graphics
      invariant hasWindow ==> indices.presentFamily.Some? ==>
        indices.presentFamily.value < k && families[indices.presentFamily.value].presentSupport &&
        forall j :: indices.presentFamily.value < j < k ==> !families[j].presentSupport
      invariant indices.graphicsFamily.None? <==> forall j :: 0 <= j < k ==> !families[j].graphics
      invariant hasWindow ==> (indices.presentFamily.None? <==> forall j :: 0 <= j < k ==> !families[j].presentSupport)
      invariant !hasWindow ==> indices.presentFamily.None?
      invariant !hasWindow ==> indices.graphicsFamily.Some? ==> indices.graphicsFamily.value == 0
    {
      if families[k].graphics {
        indices := indices.(graphicsFamily := Some(i));
      }
      if hasWindow {
        if families[i].presentSupport {
          indices := indices.(presentFamily := Some(i));
        }
        i := i + 1;
      }
      k := k + 1;
    }
  }

  /** Without a window the loop above reports family 0 as the graphics family whenever any
      family has graphics, even when family 0 itself has none. */
  method NoWindowPicksFamilyWithoutGraphics() returns (families: seq<QueueFamily>, indices: QueueFamilyIndices)
    ensures |families| == 2 && !families[0].graphics && families[1].graphics
    ensures indices.graphicsFamily == Some(0)
  {
    families := [QueueFamily(false, false), QueueFamily(true, false)];
    indices := SelectQueueFamilies(families, false);
  }

  /** The loop with the counter advanced on every family, as evidently intended: the
      reported graphics family always has graphics, with or without a window. */
  method SelectQueueFamiliesIntended(families: seq<QueueFamily>, hasWindow: bool) returns (indices: QueueFamilyIndices)
    requires |families| <= 0x7FFF_FFFF
    ensures indices.graphicsFamily.Some? ==>
      indices.graphicsFamily.value < |families| && families[indices.graphicsFamily.value].graphics &&
      forall j :: indices.graphicsFamily.value < j < |families| ==> !families[j].graphics
    ensures indices.graphicsFamily.None? <==> forall j :: 0 <= j < |families| ==> !families[j].graphics
    ensures hasWindow ==> indices.presentFamily.Some? ==>
      indices.presentFamily.value < |families| && families[indices.presentFamily.value].presentSupport &&
      forall j :: indices.presentFamily.value < j < |families| ==> !families[j].presentSupport
    ensures hasWindow ==> (indices.presentFamily.None? <==> forall j :: 0 <= j < |families| ==> !families[j].presentSupport)
    ensures !hasWindow ==> indices.presentFamily.None?
  {
    indices := QueueFamilyIndices(None, None);
    var i := 0;
    while i < |families|
      invariant 0 <= i <= |families|
      invariant indices.graphicsFamily.Some? ==>
        indices.graphicsFamily.value < i && families[indices.graphicsFamily.value].graphics &&
        forall j :: indices.graphicsFamily.value < j < i ==> !families[j].graphics
      invariant indices.graphicsFamily.None? <==> forall j :: 0 <= j < i ==> !families[j].graphics
      invariant hasWindow ==> indices.presentFamily.Some? ==>
        indices.presentFamily.value < i && families[indices.presentFamily.value].presentSupport &&
        forall j :: indices.presentFamily.value < j < i ==> !families[j].presentSupport
      invariant hasWindow ==> (indices.presentFamily.None? <==> forall j :: 0 <= j < i ==> !families[j].presentSupport)
      invariant !hasWindow ==> indices.presentFamily.None?
    {
      if families[i].graphics {
        indices := indices.(graphicsFamily := Some(i));
      }
      if hasWindow && families[i].presentSupport {
        indices := indices.(presentFamily := Some(i));
      }
      i := i + 1;
    }
  }

  /** Some family has graphics (`graphics`), or can present (otherwise). */
  predicate HasFamily(families: seq<QueueFamily>, graphics: bool)
  {
    exists j :: 0 <= j < |families| && (if graphics then families[j].graphics else families[j].presentSupport)
  }

  /** A constructed `PhysicalDevice`: the GPU it uses (always the first one enumerated)
      and the queue families chosen on it. */
  datatype PhysicalDevice = PhysicalDevice(gpu: Gpu, queueFamilyIndices: QueueFamilyIndices)
  {
    /** `findMemoryType`: the first memory type allowed by `typeFilter` with all of
        `properties`. */
    method FindMemoryType(typeFilter: bv32, properties: bv32) returns (r: Result<uint32>)
      requires |gpu.memoryTypes| <= 32
      ensures r.Ok? ==> FirstSuitable(gpu.memoryTypes, typeFilter, properties, r.value)
      ensures r.Err? ==> NoneSuitable(gpu.memoryTypes, typeFilter, properties)
      ensures r.Err? ==> r.error == RuntimeError(NoSuitableMemoryType)
    {
      var i := 0;
      while i < |gpu.memoryTypes|
        invariant 0 <= i <= |gpu.memoryTypes|
        invariant forall j :: 0 <= j < i ==> !SuitableMemoryType(gpu.memoryTypes, typeFilter, properties, j)
      {
        if SuitableMemoryType(gpu.memoryTypes, typeFilter, properties, i) {
          return Ok(i);
        }
        i := i + 1;
      }
      return Err(RuntimeError(NoSuitableMemoryType));
    }

    /** `findSupportedFormat`: the first candidate with all of `features` for `tiling`. */
    method FindSupportedFormat(candidates: seq<Format>, tiling: ImageTiling, features: bv32) returns (r: Result<Format>)
      ensures r.Ok? ==> exists k :: 0 <= k < |candidates| && candidates[k] == r.value &&
                          SupportsFormat(gpu.formats, r.value, tiling, features) &&
                          forall j :: 0 <= j < k ==> !SupportsFormat(gpu.formats, candidates[j], tiling, features)
      ensures r.Err? ==> forall j :: 0 <= j < |candidates| ==> !SupportsFormat(gpu.formats, candidates[j], tiling, features)
      ensures r.Err? ==> r.error == RuntimeError(NoSupportedFormat)
    {
      var k := 0;
      while k < |candidates|
        invariant 0 <= k <= |candidates|
        invariant forall j :: 0 <= j < k ==> !SupportsFormat(gpu.formats, candidates[j], tiling, features)
      {
        if SupportsFormat(gpu.formats, candidates[k], tiling, features) {
          return Ok(candidates[k]);
        }
        k := k + 1;
      }
      return Err(RuntimeError(NoSupportedFormat));
    }

    /** `findDepthFormat`: the first of D32_SFLOAT, D32_SFLOAT_S8_UINT, D24_UNORM_S8_UINT
        usable as an optimally tiled depth/stencil attachment. */
    method FindDepthFormat() returns (r: Result<Format>)
      ensures r == (
        if SupportsFormat(gpu.formats, FORMAT_D32_SFLOAT, TILING_OPTIMAL, FORMAT_FEATURE_DEPTH_STENCIL_ATTACHMENT)
        then Ok(FORMAT_D32_SFLOAT)
        else if SupportsFormat(gpu.formats, FORMAT_D32_SFLOAT_S8_UINT, TILING_OPTIMAL, FORMAT_FEATURE_DEPTH_STENCIL_ATTACHMENT)
        then Ok(FORMAT_D32_SFLOAT_S8_UINT)
        else if SupportsFormat(gpu.formats, FORMAT_D24_UNORM_S8_UINT, TILING_OPTIMAL, FORMAT_FEATURE_DEPTH_STENCIL_ATTACHMENT)
        then Ok(FORMAT_D24_UNORM_S8_UINT)
        else Err(RuntimeError(NoSupportedFormat)))
    {
      var candidates := [FORMAT_D32_SFLOAT, FORMAT_D32_SFLOAT_S8_UINT, FORMAT_D24_UNORM_S8_UINT];
      r := FindSupportedFormat(candidates, TILING_OPTIMAL, FORMAT_FEATURE_DEPTH_STENCIL_ATTACHMENT);
      if r.Ok? {
        var k :| 0 <= k < |candidates| && candidates[k] == r.value &&
          SupportsFormat(gpu.formats, r.value, TILING_OPTIMAL, FORMAT_FEATURE_DEPTH_STENCIL_ATTACHMENT) &&
          forall j :: 0 <= j < k ==> !SupportsFormat(gpu.formats, candidates[j], TILING_OPTIMAL, FORMAT_FEATURE_DEPTH_STENCIL_ATTACHMENT);
        assert k == 0 || !SupportsFormat(gpu.formats, candidates[0], TILING_OPTIMAL, FORMAT_FEATURE_DEPTH_STENCIL_ATTACHMENT);
        assert k == 2 ==> !SupportsFormat(gpu.formats, candidates[1], TILING_OPTIMAL, FORMAT_FEATURE_DEPTH_STENCIL_ATTACHMENT);
      } else {
        assert !SupportsFormat(gpu.formats, candidates[0], TILING_OPTIMAL, FORMAT_FEATURE_DEPTH_STENCIL_ATTACHMENT);
        assert !SupportsFormat(gpu.formats, candidates[1], TILING_OPTIMAL, FORMAT_FEATURE_DEPTH_STENCIL_ATTACHMENT);
        assert !SupportsFormat(gpu.formats, candidates[2], TILING_OPTIMAL, FORMAT_FEATURE_DEPTH_STENCIL_ATTACHMENT);
      }
    }
  }

  /** The constructor: fails without a GPU; otherwise selects queue families on the first
      GPU and fails without a graphics family, or (with a window) without a present one. */
  method CreatePhysicalDevice(gpus: seq<Gpu>, hasWindow: bool) returns (r: Result<PhysicalDevice>)
    requires forall g :: g in gpus ==> |g.queueFamilies| <= 0x7FFF_FFFF
    ensures gpus == [] ==> r == Err(RuntimeError(NoVulkanGpu))
    ensures r.Ok? <==> gpus != [] && HasFamily(gpus[0].queueFamilies, true) &&
                       (hasWindow ==> HasFamily(gpus[0].queueFamilies, false))
    ensures r.Ok? ==> r.value.gpu == gpus[0]
    ensures r.Ok? ==> SelectedAsWritten(gpus[0].queueFamilies, hasWindow, r.value.queueFamilyIndices)
    ensures r.Ok? ==> r.value.queueFamilyIndices.graphicsFamily.Some?
    ensures r.Ok? && hasWindow ==> r.value.queueFamilyIndices.presentFamily.Some?
    ensures gpus != [] && !HasFamily(gpus[0].queueFamilies, true) ==> r == Err(RuntimeError(NoGraphicQueue))
    ensures gpus != [] && hasWindow && HasFamily(gpus[0].queueFamilies, true) && !HasFamily(gpus[0].queueFamilies, false) ==>
            r == Err(RuntimeError(NoPresentQueue))
  {
    if |gpus| == 0 {
      return Err(RuntimeError(NoVulkanGpu));
    }
    var indices := SelectQueueFamilies(gpus[0].queueFamilies, hasWindow);
    if indices.graphicsFamily.None? {
      return Err(RuntimeError(NoGraphicQueue));
    }
    if hasWindow && indices.presentFamily.None? {
      return Err(RuntimeError(NoPresentQueue));
    }
    return Ok(PhysicalDevice(gpus[0], indices));
  }
}
