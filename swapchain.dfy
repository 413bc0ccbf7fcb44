/** `basicvk::Swapchain`: the swapchain, its images (owned by the swapchain itself) and one
    colour view per image (owned by the wrapper), with the selection policies the
    constructor applies to what the surface supports. */
module Swapchains {
  import opened Vk
  import opened Gpu
  import opened PhysicalDevices
  import opened Devices
  import opened Synchronous

  /** A `VkSurfaceFormatKHR`. */
  datatype SurfaceFormat = SurfaceFormat(format: Format, colorSpace: ColorSpace)

  /** The fields of `VkSurfaceCapabilitiesKHR` the constructor reads (the pre-transform is
      passed through unread and not modelled). */
  datatype SurfaceCapabilities = SurfaceCapabilities(
    minImageCount: uint32, maxImageCount: uint32,
    currentExtent: Extent2D, minImageExtent: Extent2D, maxImageExtent: Extent2D)

  /** `SwapChainSupportDetails`: what `querySwapChainSupport` reports for the surface. */
  datatype SwapChainSupportDetails = SwapChainSupportDetails(
    capabilities: SurfaceCapabilities, formats: seq<SurfaceFormat>, presentModes: seq<nat>)

  /** `SwapchainCreateInfo`. */
  datatype SwapchainCreateInfo = SwapchainCreateInfo(presentMode: nat, sharingMode: nat)

  /** The format the application prefers: 8-bit BGRA sRGB, non-linear sRGB colour space. */
  predicate Preferred(f: SurfaceFormat) {
    f.format == FORMAT_B8G8R8A8_SRGB && f.colorSpace == COLOR_SPACE_SRGB_NONLINEAR
  }

  /** The position of the first preferred format in `formats[from..]`, or `|formats|`. */
  function FirstPreferred(formats: seq<SurfaceFormat>, from: nat): (k: nat)
    requires from <= |formats|
    ensures from <= k <= |formats|
    ensures k < |formats| ==> Preferred(formats[k])
    ensures forall j :: from <= j < k ==> !Preferred(formats[j])
    decreases |formats| - from
  {
    if from == |formats| then from
    else if Preferred(formats[from]) then from
    else FirstPreferred(formats, from + 1)
  }

  /** `chooseSwapSurfaceFormat`: the first preferred format if there is one, otherwise
      the first format. It reads element 0 unconditionally, so the list must be non-empty. */
  function ChooseSwapSurfaceFormat(formats: seq<SurfaceFormat>): (f: SurfaceFormat)
    requires |formats| > 0
    ensures f in formats
    ensures (exists k :: 0 <= k < |formats| && Preferred(formats[k])) <==> Preferred(f)
    ensures Preferred(f) ==> exists k :: 0 <= k < |formats| && formats[k] == f &&
                                        forall j :: 0 <= j < k ==> !Preferred(formats[j])
    ensures !Preferred(f) ==> f == formats[0]
  {
    var k := FirstPreferred(formats, 0);
    if k < |formats| then formats[k] else formats[0]
  }

  /** `std::clamp(v, lo, hi)`: `lo` below the range, `hi` above it, otherwise `v`. */
  function Clamp(v: uint32, lo: uint32, hi: uint32): (r: uint32)
    ensures lo <= hi ==> lo <= r <= hi
    ensures lo <= v <= hi ==> r == v
    ensures r == v || r == lo || r == hi
  {
    if v < lo then lo else if hi < v then hi else v
  }

  /** `chooseSwapExtent`: the surface's current extent, unless its width is the special
      value `0xFFFFFFFF`; then the window's framebuffer size (cast from `int` to
      `uint32_t`) clamped into the supported range, dimension by dimension. */
  function ChooseSwapExtent(caps: SurfaceCapabilities, framebufferWidth: int32, framebufferHeight: int32): (e: Extent2D)
    ensures caps.currentExtent.width != UINT32_MAX ==> e == caps.currentExtent
    ensures caps.currentExtent.width == UINT32_MAX ==>
      e.width == Clamp(ToUint32(framebufferWidth), caps.minImageExtent.width, caps.maxImageExtent.width) &&
      e.height == Clamp(ToUint32(framebufferHeight), caps.minImageExtent.height, caps.maxImageExtent.height)
    ensures caps.currentExtent.width == UINT32_MAX && caps.minImageExtent.width <= caps.maxImageExtent.width ==>
      caps.minImageExtent.width <= e.width <= caps.maxImageExtent.width
    ensures caps.currentExtent.width == UINT32_MAX && caps.minImageExtent.height <= caps.maxImageExtent.height ==>
      caps.minImageExtent.height <= e.height <= caps.maxImageExtent.height
  {
    if caps.currentExtent.width != UINT32_MAX then caps.currentExtent
    else Extent2D(Clamp(ToUint32(framebufferWidth), caps.minImageExtent.width, caps.maxImageExtent.width),
                  Clamp(ToUint32(framebufferHeight), caps.minImageExtent.height, caps.maxImageExtent.height))
  }

  /** The image count the constructor requests: one more than the minimum (a `uint32_t`
      sum), lowered to the maximum when there is one (a maximum of 0 means none). */
  function ImageCount(caps: SurfaceCapabilities): (n: uint32)
    ensures caps.maxImageCount == 0 ==> n == ToUint32(caps.minImageCount as int + 1)
    ensures caps.maxImageCount > 0 ==> n <= caps.maxImageCount
    ensures caps.minImageCount < UINT32_MAX && (caps.maxImageCount == 0 || caps.minImageCount < caps.maxImageCount) ==>
      n == caps.minImageCount + 1
    ensures caps.minImageCount < UINT32_MAX && 0 < caps.maxImageCount <= caps.minImageCount ==> n == caps.maxImageCount
  {
    var requested := ToUint32(caps.minImageCount as int + 1);
    if caps.maxImageCount > 0 && requested > caps.maxImageCount then caps.maxImageCount else requested
  }

  /** The queue-family index list: the graphics family, then the present family, each
      only if set; an index shared by both appears twice. */
  function QueueIndexList(indices: QueueFamilyIndices): (l: seq<uint32>)
    ensures |l| == (if indices.graphicsFamily.Some? then 1 else 0) + (if indices.presentFamily.Some? then 1 else 0)
    ensures indices.graphicsFamily.Some? ==> l[0] == indices.graphicsFamily.value
    ensures indices.presentFamily.Some? ==> l[|l| - 1] == indices.presentFamily.value
    ensures forall x :: x in l <==> Some(x) == indices.graphicsFamily || Some(x) == indices.presentFamily
  {
    (if indices.graphicsFamily.Some? then [indices.graphicsFamily.value] else []) +
    (if indices.presentFamily.Some? then [indices.presentFamily.value] else [])
  }

  /** What `vkCreateSwapchainKHR` receives. */
  function SwapchainInfoFor(support: SwapChainSupportDetails, extent: Extent2D, indices: QueueFamilyIndices,
                            createInfo: SwapchainCreateInfo): CreateInfo
    requires |support.formats| > 0
  {
    var f := ChooseSwapSurfaceFormat(support.formats);
    SwapchainInfo(ImageCount(support.capabilities), f.format, f.colorSpace, extent,
                  QueueIndexList(indices), createInfo.sharingMode, createInfo.presentMode)
  }

  /** With a `uint32_t` count, the request is always within the maximum when there is one,
      and at least one image is asked for unless the minimum is the largest `uint32_t`. */
  lemma ImageCountBounds(caps: SurfaceCapabilities)
    ensures caps.minImageCount < UINT32_MAX ==> ImageCount(caps) >= 1
    ensures caps.minImageCount == UINT32_MAX && caps.maxImageCount == 0 ==> ImageCount(caps) == 0
  {
  }

  /** How the image and view steps of the constructor end, for a swapchain of `count`
      images and the driver's results from log position `at` on: the count query at `at`
      is not looked at, the image query at `at + 1` can fail, then one view per image. */
  function ImagesAndViewsOutcome(outcome: nat -> VkResult, count: nat, at: nat): Outcome
  {
    if outcome(at + 1) != VkSuccess then Fail(RuntimeError(SwapchainImages))
    else if !AllSucceed(outcome, at + 2, count) then Fail(RuntimeError(SwapchainViewCreation))
    else Pass
  }

  /** How the constructor ends: a failed `vkCreateSwapchainKHR` at `at`, else the image
      and view steps from `at + 1` for the image count of the new swapchain. */
  function SwapchainOutcome(outcome: nat -> VkResult, count: nat, at: nat): Outcome
  {
    if outcome(at) != VkSuccess then Fail(RuntimeError(SwapchainCreation))
    else ImagesAndViewsOutcome(outcome, count, at + 1)
  }

  class Swapchain {
    const drv: Driver
    const imageFormat: Format
    const extent: Extent2D
    var swapchain: Handle
    var images: seq<Handle>
    var views: seq<Handle>

    ghost predicate Valid()
      reads this, drv
    {
      drv.Valid() && drv.Holds(this, swapchain, TypeSwapchain) && drv.HoldsAll(this, views, TypeImageView)
    }

    /** The member initialisers, with the format and extent the constructor computes first. */
    constructor Empty(drv: Driver, imageFormat: Format, extent: Extent2D)
      ensures this.drv == drv && this.imageFormat == imageFormat && this.extent == extent
      ensures swapchain == Null && images == [] && views == []
    {
      this.drv := drv;
      this.imageFormat, this.extent := imageFormat, extent;
      swapchain, images, views := Null, [], [];
    }

    /** `Swapchain(device, physicalDevice, window, createInfo)`: chooses format, extent and
        image count from the surface's support, creates the swapchain, fetches its images
        and creates one view per image. Each failure throws; what was created before it is
        not released. The surface queries and the window's framebuffer size are inputs. */
    static method Create(device: Device, physical: PhysicalDevice, support: SwapChainSupportDetails,
                         framebufferWidth: int32, framebufferHeight: int32, createInfo: SwapchainCreateInfo)
      returns (r: Result<Swapchain>)
      requires device.drv.Valid() && |support.formats| > 0
      modifies device.drv`log, device.drv`next, device.drv`live, device.drv`owner
      ensures device.drv.Valid()
      ensures var o := SwapchainOutcome(device.drv.outcome, device.drv.imageCounts(old(device.drv.next)), old(|device.drv.log|));
              (r.Ok? <==> o.Pass?) && (r.Err? ==> o == Fail(r.error))
      ensures r.Ok? ==> r.value.swapchain == Native(old(device.drv.next))
      ensures r.Err? && r.error == RuntimeError(SwapchainCreation) <==> old(device.drv.Upcoming()) != VkSuccess
      ensures r.Err? ==> r.error in {RuntimeError(SwapchainCreation), RuntimeError(SwapchainImages),
                                     RuntimeError(SwapchainViewCreation)}
      ensures r.Ok? ==> fresh(r.value) && r.value.Valid() && r.value.drv == device.drv
      ensures r.Ok? ==> r.value.imageFormat == ChooseSwapSurfaceFormat(support.formats).format &&
                        r.value.extent == ChooseSwapExtent(support.capabilities, framebufferWidth, framebufferHeight)
      ensures r.Ok? ==> r.value.swapchain.Native?
      ensures r.Ok? ==> device.drv.live[r.value.swapchain.id] == SwapchainInfoFor(support, r.value.extent, physical.queueFamilyIndices, createInfo)
      ensures r.Ok? ==> |r.value.images| == device.drv.imageCounts(r.value.swapchain.id) &&
                        |r.value.views| == |r.value.images|
      ensures r.Ok? ==> forall k :: 0 <= k < |r.value.views| ==>
        r.value.views[k].Native? && device.drv.live[r.value.views[k].id] == ImageViewInfo(r.value.images[k], r.value.imageFormat)
      ensures device.drv.KeepsAll()
    {
      var surfaceFormat := ChooseSwapSurfaceFormat(support.formats);
      var extent := ChooseSwapExtent(support.capabilities, framebufferWidth, framebufferHeight);
      var s := new Swapchain.Empty(device.drv, surfaceFormat.format, extent);
      var o := s.CreateHandle(SwapchainInfoFor(support, extent, physical.queueFamilyIndices, createInfo));
      if o.Fail? {
        return Err(o.error);
      }
      o := s.CreateImagesAndViews();
      if o.Fail? {
        return Err(o.error);
      }
      return Ok(s);
    }

    /** The `vkCreateSwapchainKHR` step of the constructor. */
    method CreateHandle(info: CreateInfo) returns (o: Outcome)
      requires Valid() && swapchain == Null && views == [] && info.SwapchainInfo?
      modifies this`swapchain, drv`log, drv`next, drv`live, drv`owner
      ensures Valid() && images == old(images) && views == old(views)
      ensures o.Pass? <==> old(drv.Upcoming()) == VkSuccess
      ensures o.Fail? ==> o.error == RuntimeError(SwapchainCreation)
      ensures o.Pass? ==> swapchain.Native? && drv.live[swapchain.id] == info
      ensures o.Pass? ==> swapchain == Native(old(drv.next))
      ensures |drv.log| == old(|drv.log|) + 1
      ensures drv.KeepsAll()
    {
      var res, h := drv.Create(info, Some(this));
      swapchain := h;
      o := if res == VkSuccess then Pass else Fail(RuntimeError(SwapchainCreation));
    }

    /** The rest of the constructor: the images, then the views. */
    method CreateImagesAndViews() returns (o: Outcome)
      requires Valid() && swapchain.Native? && views == []
      modifies this`images, this`views, drv`log, drv`next, drv`live, drv`owner
      ensures Valid() && swapchain == old(swapchain)
      ensures o == ImagesAndViewsOutcome(drv.outcome, drv.imageCounts(swapchain.id), old(|drv.log|))
      ensures o.Fail? ==> o.error in {RuntimeError(SwapchainImages), RuntimeError(SwapchainViewCreation)}
      ensures o.Pass? ==> |images| == drv.imageCounts(swapchain.id) && |views| == |images|
      ensures o.Pass? ==> forall k :: 0 <= k < |views| ==>
        views[k].Native? && drv.live[views[k].id] == ImageViewInfo(images[k], imageFormat)
      ensures drv.KeepsAll()
    {
      o := CreateImages();
      if o.Fail? {
        return;
      }
      o := CreateViews();
    }

    /** `vkGetSwapchainImagesKHR` twice: the count (its result is not checked), then the
        images into a vector of that size; a failure of the second call throws. */
    method CreateImages() returns (o: Outcome)
      requires Valid() && swapchain.Native?
      modifies this`images, drv`log, drv`next
      ensures Valid() && views == old(views)
      ensures o.Pass? <==> old(drv.outcome(|drv.log| + 1)) == VkSuccess
      ensures o.Fail? ==> o.error == RuntimeError(SwapchainImages)
      ensures o.Pass? ==> |images| == drv.imageCounts(swapchain.id) &&
                          forall k :: 0 <= k < |images| ==> images[k] == Native(old(drv.next) + k)
      ensures drv.log == old(drv.log) + [Called(VkGetSwapchainImages(swapchain), old(drv.Upcoming())),
                                         Called(VkGetSwapchainImages(swapchain), old(drv.outcome(|drv.log| + 1)))]
    {
      var _, count := drv.QuerySwapchainImageCount(swapchain);
      images := seq(count, _ => Null);
      var res, got := drv.QuerySwapchainImages(swapchain, count);
      if res != VkSuccess {
        return Fail(RuntimeError(SwapchainImages));
      }
      images := got;
      return Pass;
    }

    /** The view loop of the constructor: a vector of null views, one per image, each then
        filled by `vkCreateImageView` of that image in the swapchain's format; a failure
        throws. */
    method CreateViews() returns (o: Outcome)
      requires Valid() && views == []
      modifies this`views, drv`log, drv`next, drv`live, drv`owner
      ensures Valid()
      ensures o.Pass? <==> AllSucceed(drv.outcome, old(|drv.log|), |images|)
      ensures o.Fail? ==> o.error == RuntimeError(SwapchainViewCreation)
      ensures o.Pass? ==> |views| == |images| && forall k :: 0 <= k < |views| ==>
        views[k].Native? && drv.live[views[k].id] == ImageViewInfo(images[k], imageFormat)
      ensures drv.KeepsAll()
    {
      var imgs, fmt := images, imageFormat;
      var infos := seq(|imgs|, k requires 0 <= k < |imgs| => ImageViewInfo(imgs[k], fmt));
      var res;
      res, views := drv.CreateAll(infos, this, TypeImageView);
      o := if res == VkSuccess then Pass else Fail(RuntimeError(SwapchainViewCreation));
    }

    /** `Swapchain(Swapchain&)`: takes the swapchain, its images and its views, and leaves
        `other` with a null swapchain and no images or views. */
    constructor Copy(other: Swapchain)
      requires other.Valid()
      modifies other, other.drv`owner
      ensures drv == other.drv && imageFormat == other.imageFormat && extent == other.extent
      ensures swapchain == old(other.swapchain) && images == old(other.images) && views == old(other.views)
      ensures other.swapchain == Null && other.images == [] && other.views == []
      ensures Valid() && other.Valid()
      ensures other.drv.KeepsOthers(other)
    {
      drv := other.drv;
      imageFormat, extent := other.imageFormat, other.extent;
      swapchain, images, views := other.swapchain, other.images, other.views;
      new;
      other.swapchain, other.images, other.views := Null, [], [];
      drv.TransferEntries(views, TypeImageView, other, this);
      if swapchain.Native? {
        drv.Transfer(swapchain.id, this);
      }
    }

    /** `operator=`: returns a new swapchain built from `other`; `*this` is not touched. */
    method Assign(other: Swapchain) returns (r: Swapchain)
      requires other.Valid()
      modifies other, other.drv`owner
      ensures fresh(r) && r.Valid() && other.Valid()
      ensures r.swapchain == old(other.swapchain) && r.images == old(other.images) && r.views == old(other.views)
      ensures other.swapchain == Null && other.images == [] && other.views == []
      ensures this != other ==> swapchain == old(swapchain) && images == old(images) && views == old(views)
      ensures this != other && old(Valid()) ==> Valid()
      ensures other.drv.KeepsOthers(other)
    {
      r := new Swapchain.Copy(other);
    }

    /** `~Swapchain`: destroys a non-null swapchain and nulls it, then destroys each
        non-null view and nulls it; a second run does nothing. */
    method Destroy()
      requires Valid()
      modifies this`swapchain, this`views, drv`log, drv`live, drv`owner
      ensures Valid() && swapchain == Null
      ensures |views| == old(|views|) && forall k :: 0 <= k < |views| ==> views[k] == Null
      ensures drv.log == old(drv.log) + DestroyEvents(TypeSwapchain, old(swapchain)) + DestroyAllEvents(TypeImageView, old(views))
      ensures drv.live == Drop(old(drv.live), old(swapchain)) - Ids(old(views))
      ensures drv.KeepsOthers(this)
    {
      if swapchain.Native? {
        assert forall k :: 0 <= k < |views| ==> views[k] != swapchain;
        drv.Destroy(TypeSwapchain, swapchain, this);
        swapchain := Null;
      }
      views := drv.DestroyAll(TypeImageView, views, this);
    }

    /** `acquireNextImage`: `vkAcquireNextImageKHR` with the semaphore and fence if given
        (null handles otherwise); any result other than success throws. The timeout is
        unbounded in every use and not modelled. */
    method AcquireNextImage(semaphore: Option<Semaphore>, fence: Option<Fence>) returns (r: Result<nat>)
      modifies drv`log, drv`signaled
      ensures r.Ok? <==> |images| > 0 && old(drv.Upcoming()) == VkSuccess
      ensures r.Ok? ==> r.value < |images|
      ensures r.Err? ==> r.error == RuntimeError(ImageAcquisition)
      ensures drv.log == old(drv.log) + [Called(VkAcquireNextImage(swapchain, SemaphoreHandle(semaphore), FenceHandle(fence)),
                                                if |images| == 0 then VkError(-1000001004) else old(drv.Upcoming()))]
      ensures r.Ok? ==> drv.log == old(drv.log) + [Called(VkAcquireNextImage(swapchain, SemaphoreHandle(semaphore), FenceHandle(fence)), VkSuccess)]
      ensures drv.signaled == if r.Ok? && fence.Some? && fence.value.fence.Native?
                              then old(drv.signaled) + {fence.value.fence.id} else old(drv.signaled)
    {
      var sem := if semaphore.Some? then semaphore.value.semaphore else Null;
      var fen := if fence.Some? then fence.value.fence else Null;
      var res, index := drv.Acquire(swapchain, sem, fen, |images|);
      if res != VkSuccess {
        return Err(RuntimeError(ImageAcquisition));
      }
      return Ok(index);
    }

    /** `presentSwapchain`: `vkQueuePresentKHR` of image `imageIndex` on the given queue,
        waiting on the semaphore if one is given (a wait count of 1) and on nothing
        otherwise; any result other than success throws. */
    method PresentSwapchain(presentQueue: Queue, semaphore: Option<Semaphore>, imageIndex: nat) returns (o: Outcome)
      modifies drv`log
      ensures o == if old(drv.Upcoming()) == VkSuccess then Pass else Fail(RuntimeError(Presentation))
      ensures var waits := if semaphore.Some? then [semaphore.value.semaphore] else [];
        drv.log == old(drv.log) + [Called(VkQueuePresent(presentQueue.handle, waits, swapchain, imageIndex), old(drv.Upcoming()))]
    {
      var waits := if semaphore.Some? then [semaphore.value.semaphore] else [];
      var res := drv.Invoke(VkQueuePresent(presentQueue.handle, waits, swapchain, imageIndex));
      o := if res == VkSuccess then Pass else Fail(RuntimeError(Presentation));
    }
  }
}
