/** `basicvk::Fence` and `basicvk::Semaphore`: owners of one synchronisation handle each.
    Their "copy" constructors move the handle, `operator=` returns a new object built from
    the source, and the destructor releases a non-null handle once. */
module Synchronous {
  import opened Vk
  import opened Gpu
  import opened Devices

  /** `FenceOptions`. */
  datatype FenceOptions = FenceOptions(flags: bv32)

  class Fence {
    const drv: Driver
    var fence: Handle

    ghost predicate Valid()
      reads this, drv
    {
      drv.Valid() && drv.Holds(this, fence, TypeFence)
    }

    /** The member initialisers: a null fence. */
    constructor Empty(drv: Driver)
      ensures this.drv == drv && fence == Null
    {
      this.drv := drv;
      fence := Null;
    }

    /** `Fence(device, options)`: `vkCreateFence` with the option flags; failure throws. */
    static method Create(device: Device, options: FenceOptions) returns (r: Result<Fence>)
      requires device.drv.Valid()
      modifies device.drv`log, device.drv`next, device.drv`live, device.drv`owner, device.drv`signaled
      ensures device.drv.Valid()
      ensures r.Ok? <==> old(device.drv.Upcoming()) == VkSuccess
      ensures r.Err? ==> r.error == RuntimeError(FenceCreation)
      ensures r.Ok? ==> fresh(r.value) && r.value.Valid() && r.value.drv == device.drv
      ensures r.Ok? ==> (r.value.fence.Native? && r.value.fence.id !in old(device.drv.live) &&
                         device.drv.live[r.value.fence.id] == FenceInfo(options.flags))
      ensures r.Ok? ==> device.drv.log == old(device.drv.log) + [Created(r.value.fence.id, FenceInfo(options.flags))]
      ensures r.Err? ==> device.drv.log == old(device.drv.log) + [CreateFailed(FenceInfo(options.flags), old(device.drv.Upcoming()))]
      ensures device.drv.signaled == if r.Ok? && StartsSignaled(FenceInfo(options.flags))
                                     then old(device.drv.signaled) + {r.value.fence.id} else old(device.drv.signaled)
      ensures device.drv.KeepsAll()
    {
      var f := new Fence.Empty(device.drv);
      var res, h := device.drv.CreateFence(options.flags, f);
      f.fence := h;
      if res != VkSuccess {
        return Err(RuntimeError(FenceCreation));
      }
      return Ok(f);
    }

    /** `Fence(Fence&)` and `Fence(Fence&&)`: take the handle and leave `other` null. */
    constructor Copy(other: Fence)
      requires other.Valid()
      modifies other, other.drv`owner
      ensures drv == other.drv && fence == old(other.fence) && other.fence == Null
      ensures Valid() && other.Valid()
      ensures other.drv.KeepsOthers(other)
    {
      drv := other.drv;
      fence := other.fence;
      new;
      other.fence := Null;
      if fence.Native? {
        drv.Transfer(fence.id, this);
      }
    }

    /** Both `operator=` overloads: return a new `Fence` built from `other`; `*this` is
        not touched. */
    method Assign(other: Fence) returns (r: Fence)
      requires other.Valid()
      modifies other, other.drv`owner
      ensures fresh(r) && r.Valid() && other.Valid()
      ensures r.fence == old(other.fence) && other.fence == Null
      ensures this != other ==> fence == old(fence)
      ensures this != other && old(Valid()) ==> Valid()
      ensures other.drv.KeepsOthers(other)
    {
      r := new Fence.Copy(other);
    }

    /** `~Fence`: destroys a non-null fence and nulls it; on a null fence it does nothing,
        so running it twice destroys once. */
    method Destroy()
      requires Valid()
      modifies this, drv`log, drv`live, drv`owner
      ensures Valid() && fence == Null
      ensures drv.log == old(drv.log) + DestroyEvents(TypeFence, old(fence))
      ensures drv.live == Drop(old(drv.live), old(fence)) && drv.owner == Drop(old(drv.owner), old(fence))
      ensures drv.KeepsOthers(this)
    {
      if fence.Native? {
        drv.Destroy(TypeFence, fence, this);
        fence := Null;
      }
    }

    /** `wait`: `vkWaitForFences` on this fence; any result other than success throws.
        (The timeout is unbounded in every use; the mock does not model time.) */
    method Wait() returns (o: Outcome)
      modifies drv`log, drv`signaled, drv`pending, drv`failedWaits
      ensures var r := WaitResult(old(drv.pending), old(drv.signaled), fence, old(drv.Upcoming()));
        o == (if r == VkSuccess then Pass else Fail(RuntimeError(FenceWait))) &&
        drv.log == old(drv.log) + [Called(VkWaitForFences(fence), r)] &&
        Waited(old(drv.pending), old(drv.signaled), fence, r, drv.pending, drv.signaled)
      ensures drv.failedWaits == if o.Pass? then old(drv.failedWaits) else old(drv.failedWaits) + 1
      ensures o.Pass? ==> fence.Native? && fence.id in drv.signaled
    {
      var res := drv.WaitForFence(fence);
      if res != VkSuccess {
        return Fail(RuntimeError(FenceWait));
      }
      SignaledAfterWait(old(drv.pending), fence, old(drv.signaled));
      return Pass;
    }

    /** `reset`: `vkResetFences` on this fence; any result other than success throws. */
    method Reset() returns (o: Outcome)
      modifies drv`log, drv`signaled
      ensures o == if old(drv.Upcoming()) == VkSuccess then Pass else Fail(RuntimeError(FenceReset))
      ensures drv.log == old(drv.log) + [Called(VkResetFences(fence), old(drv.Upcoming()))]
      ensures drv.signaled == if o.Pass? && fence.Native? then old(drv.signaled) - {fence.id} else old(drv.signaled)
    {
      var res := drv.ResetFence(fence);
      o := if res == VkSuccess then Pass else Fail(RuntimeError(FenceReset));
    }
  }

  /** After a successful wait, the fence waited on is signaled. */
  lemma SignaledAfterWait(p: seq<Submission>, f: Handle, signaled: set<nat>)
    requires f.Native? && (f.id in signaled || FirstSignaling(p, f) < |p|)
    ensures f.id in signaled + (if f.id in signaled then {} else FencesOf(p[..FirstSignaling(p, f) + 1]))
  {
    if f.id !in signaled {
      var k := FirstSignaling(p, f);
      assert p[..k + 1][k].fence == f;
    }
  }

  class Semaphore {
    const drv: Driver
    var semaphore: Handle

    ghost predicate Valid()
      reads this, drv
    {
      drv.Valid() && drv.Holds(this, semaphore, TypeSemaphore)
    }

    /** The member initialisers: a null semaphore. */
    constructor Empty(drv: Driver)
      ensures this.drv == drv && semaphore == Null
    {
      this.drv := drv;
      semaphore := Null;
    }

    /** `Semaphore(device)`: `vkCreateSemaphore`; failure throws. */
    static method Create(device: Device) returns (r: Result<Semaphore>)
      requires device.drv.Valid()
      modifies device.drv`log, device.drv`next, device.drv`live, device.drv`owner
      ensures device.drv.Valid()
      ensures r.Ok? <==> old(device.drv.Upcoming()) == VkSuccess
      ensures r.Err? ==> r.error == RuntimeError(SemaphoreCreation)
      ensures r.Ok? ==> fresh(r.value) && r.value.Valid() && r.value.drv == device.drv
      ensures r.Ok? ==> r.value.semaphore.Native? && r.value.semaphore.id !in old(device.drv.live)
      ensures r.Ok? ==> device.drv.log == old(device.drv.log) + [Created(r.value.semaphore.id, SemaphoreInfo)]
      ensures r.Err? ==> device.drv.log == old(device.drv.log) + [CreateFailed(SemaphoreInfo, old(device.drv.Upcoming()))]
      ensures device.drv.KeepsAll()
    {
      var s := new Semaphore.Empty(device.drv);
      var res, h := device.drv.Create(SemaphoreInfo, Some(s));
      s.semaphore := h;
      if res != VkSuccess {
        return Err(RuntimeError(SemaphoreCreation));
      }
      return Ok(s);
    }

    /** `Semaphore(Semaphore&)` and `Semaphore(Semaphore&&)`: take the handle and leave
        `other` null. */
    constructor Copy(other: Semaphore)
      requires other.Valid()
      modifies other, other.drv`owner
      ensures drv == other.drv && semaphore == old(other.semaphore) && other.semaphore == Null
      ensures Valid() && other.Valid()
      ensures other.drv.KeepsOthers(other)
    {
      drv := other.drv;
      semaphore := other.semaphore;
      new;
      other.semaphore := Null;
      if semaphore.Native? {
        drv.Transfer(semaphore.id, this);
      }
    }

    /** Both `operator=` overloads: return a new `Semaphore` built from `other`; `*this`
        is not touched. */
    method Assign(other: Semaphore) returns (r: Semaphore)
      requires other.Valid()
      modifies other, other.drv`owner
      ensures fresh(r) && r.Valid() && other.Valid()
      ensures r.semaphore == old(other.semaphore) && other.semaphore == Null
      ensures this != other ==> semaphore == old(semaphore)
      ensures this != other && old(Valid()) ==> Valid()
      ensures other.drv.KeepsOthers(other)
    {
      r := new Semaphore.Copy(other);
    }

    /** `~Semaphore`: destroys a non-null semaphore and nulls it; a null one is skipped. */
    method Destroy()
      requires Valid()
      modifies this, drv`log, drv`live, drv`owner
      ensures Valid() && semaphore == Null
      ensures drv.log == old(drv.log) + DestroyEvents(TypeSemaphore, old(semaphore))
      ensures drv.live == Drop(old(drv.live), old(semaphore)) && drv.owner == Drop(old(drv.owner), old(semaphore))
      ensures drv.KeepsOthers(this)
    {
      if semaphore.Native? {
        drv.Destroy(TypeSemaphore, semaphore, this);
        semaphore := Null;
      }
    }
  }

  /** `pSemaphore ? pSemaphore->getVkSemaphore() : VK_NULL_HANDLE`. */
  function SemaphoreHandle(s: Option<Semaphore>): Handle
    reads if s.Some? then {s.value} else {}
  {
    if s.Some? then s.value.semaphore else Null
  }

  /** `pFence ? pFence->getVkFence() : VK_NULL_HANDLE`. */
  function FenceHandle(f: Option<Fence>): Handle
    reads if f.Some? then {f.value} else {}
  {
    if f.Some? then f.value.fence else Null
  }
}
