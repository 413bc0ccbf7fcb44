/** `basicvk::Framebuffer`: one framebuffer per swapchain image view, each with that view
    and the depth view as attachments. */
module Framebuffers {
  import opened Vk
  import opened Gpu
  import opened Devices
  import opened Swapchains

  /** What `vkCreateFramebuffer` receives for swapchain view `view`: the render pass, the
      view and the depth view as its two attachments, the swapchain extent, one layer. */
  function FramebufferInfoFor(renderPass: Handle, view: Handle, depthImageView: Handle, extent: Extent2D): (info: CreateInfo)
    ensures info.FramebufferInfo? && info.renderPass == renderPass
    ensures info.attachments == [view, depthImageView]
    ensures info.width == extent.width && info.height == extent.height && info.layers == 1
  {
    FramebufferInfo(renderPass, [view, depthImageView], extent.width, extent.height, 1)
  }

  class Framebuffer {
    const drv: Driver
    var framebuffers: seq<Handle>

    ghost predicate Valid()
      reads this, drv
    {
      drv.Valid() && drv.HoldsAll(this, framebuffers, TypeFramebuffer)
    }

    /** The member initialisers: no framebuffers. */
    constructor Empty(drv: Driver)
      ensures this.drv == drv && framebuffers == []
    {
      this.drv := drv;
      framebuffers := [];
    }

    /** `Framebuffer(device, swapchain, graphicPipeline)`: a vector of null framebuffers, one
        per swapchain view, each filled by `vkCreateFramebuffer`; a failure throws. The
        render pass and the depth buffer's view come from the graphics pipeline, which is
        not part of this model, so they are inputs. */
    static method Create(device: Device, swapchain: Swapchain, renderPass: Handle, depthImageView: Handle)
      returns (r: Result<Framebuffer>)
      requires device.drv.Valid()
      modifies device.drv`log, device.drv`next, device.drv`live, device.drv`owner
      ensures device.drv.Valid()
      ensures r.Ok? <==> AllSucceed(device.drv.outcome, old(|device.drv.log|), |swapchain.views|)
      ensures r.Ok? ==> |device.drv.log| == old(|device.drv.log|) + |swapchain.views|
      ensures r.Err? ==> r.error == RuntimeError(FramebufferCreation)
      ensures r.Ok? ==> fresh(r.value) && r.value.Valid() && r.value.drv == device.drv
      ensures r.Ok? ==> |r.value.framebuffers| == |swapchain.views|
      ensures r.Ok? ==> forall k :: 0 <= k < |r.value.framebuffers| ==>
        r.value.framebuffers[k].Native? &&
        device.drv.live[r.value.framebuffers[k].id] ==
          FramebufferInfoFor(renderPass, swapchain.views[k], depthImageView, swapchain.extent)
      ensures device.drv.KeepsAll()
    {
      var f := new Framebuffer.Empty(device.drv);
      var views, extent := swapchain.views, swapchain.extent;
      var infos := seq(|views|, k requires 0 <= k < |views| => FramebufferInfoFor(renderPass, views[k], depthImageView, extent));
      var res, hs := f.drv.CreateAll(infos, f, TypeFramebuffer);
      f.framebuffers := hs;
      if res != VkSuccess {
        return Err(RuntimeError(FramebufferCreation));
      }
      return Ok(f);
    }

    /** `Framebuffer(Framebuffer&)`: takes the list and leaves `other` with an empty one. */
    constructor Copy(other: Framebuffer)
      requires other.Valid()
      modifies other, other.drv`owner
      ensures drv == other.drv && framebuffers == old(other.framebuffers) && other.framebuffers == []
      ensures Valid() && other.Valid()
      ensures other.drv.KeepsOthers(other)
    {
      drv := other.drv;
      framebuffers := other.framebuffers;
      new;
      other.framebuffers := [];
      drv.TransferEntries(framebuffers, TypeFramebuffer, other, this);
    }

    /** `operator=`: returns a new framebuffer set built from `other`; `*this` is not
        touched. */
    method Assign(other: Framebuffer) returns (r: Framebuffer)
      requires other.Valid()
      modifies other, other.drv`owner
      ensures fresh(r) && r.Valid() && other.Valid()
      ensures r.framebuffers == old(other.framebuffers) && other.framebuffers == []
      ensures this != other ==> framebuffers == old(framebuffers)
      ensures this != other && old(Valid()) ==> Valid()
      ensures other.drv.KeepsOthers(other)
    {
      r := new Framebuffer.Copy(other);
    }

    /** `~Framebuffer`: destroys each non-null framebuffer and nulls it; the list keeps its
        length, so a second run finds only null entries and does nothing. */
    method Destroy()
      requires Valid()
      modifies this`framebuffers, drv`log, drv`live, drv`owner
      ensures Valid()
      ensures |framebuffers| == old(|framebuffers|) && forall k :: 0 <= k < |framebuffers| ==> framebuffers[k] == Null
      ensures drv.log == old(drv.log) + DestroyAllEvents(TypeFramebuffer, old(framebuffers))
      ensures drv.live == old(drv.live) - Ids(old(framebuffers)) && drv.owner == old(drv.owner) - Ids(old(framebuffers))
      ensures drv.KeepsOthers(this)
    {
      framebuffers := drv.DestroyAll(TypeFramebuffer, framebuffers, this);
    }
  }
}
