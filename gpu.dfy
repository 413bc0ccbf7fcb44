/** A mock Vulkan driver for one logical device. Every entry point the wrappers call
    appends one event to `log`; the result of each call comes from the oracle `outcome`,
    indexed by the length of the log at the time of the call, so a caller cannot know in
    advance whether a call succeeds. The mock keeps:
      - the live native objects and what they were created from (`live`),
      - which wrapper object is responsible for destroying each one (ghost `owner`),
      - an in-order GPU timeline: submissions not yet completed (`pending`) and the
        fences that are signaled (`signaled`),
      - the commands recorded into each command buffer (`recorded`),
      - the bytes written through a host mapping of each memory object (`memory`). */
module Gpu {
  import opened Vk

  /** What `vkGet*MemoryRequirements` reports for a resource. */
  datatype MemoryRequirements = MemoryRequirements(size: uint64, memoryTypeBits: bv32)

  /** The position of the first submission in `p` that signals fence `f`, or `|p|`. */
  function FirstSignaling(p: seq<Submission>, f: Handle): (k: nat)
    ensures k <= |p|
    ensures k < |p| ==> p[k].fence == f
    ensures forall j :: 0 <= j < k ==> p[j].fence != f
  {
    if p == [] then 0
    else if p[0].fence == f then 0
    else 1 + FirstSignaling(p[1..], f)
  }

  /** The fences that the completion of the submissions `p` signals. */
  function FencesOf(p: seq<Submission>): (s: set<nat>)
    ensures forall j :: 0 <= j < |p| && p[j].fence.Native? ==> p[j].fence.id in s
    ensures forall id :: id in s ==> exists j :: 0 <= j < |p| && p[j].fence == Native(id)
  {
    set j | 0 <= j < |p| && p[j].fence.Native? :: p[j].fence.id
  }

  /** `m` without the entry of `h`, if `h` is not null. */
  function Drop<V>(m: map<nat, V>, h: Handle): (r: map<nat, V>)
    ensures forall id :: id in r <==> id in m && h != Native(id)
    ensures forall id :: id in r ==> r[id] == m[id]
  {
    if h.Native? then m - {h.id} else m
  }

  /** `m` without the entries of the non-null handles of `hs`, dropped one by one. */
  function DropAll<V>(m: map<nat, V>, hs: seq<Handle>): map<nat, V>
  {
    if hs == [] then m else Drop(DropAll(m, hs[..|hs| - 1]), hs[|hs| - 1])
  }

  /** Dropping one more handle after the ids of `hs`: the ids of `hs + [h]`. */
  lemma DropAfterIds<V>(m: map<nat, V>, hs: seq<Handle>, h: Handle)
    ensures Drop(m - Ids(hs), h) == m - Ids(hs + [h])
  {
    IdsAppend(hs, h);
  }

  /** One more round of the loop that drops the entries of `hs` in order. */
  lemma DropAllStep<V>(m: map<nat, V>, hs: seq<Handle>, i: nat)
    requires i < |hs|
    ensures Drop(DropAll(m, hs[..i]), hs[i]) == DropAll(m, hs[..i + 1])
  {
    assert hs[..i + 1][..i] == hs[..i];
  }

  /** One more round of the destructor loop appends that entry's destroy to the log. */
  lemma DestroyAllEventsStep(log0: seq<Event>, t: ObjectType, hs: seq<Handle>, i: nat)
    requires i < |hs|
    ensures log0 + DestroyAllEvents(t, hs[..i]) + DestroyEvents(t, hs[i]) == log0 + DestroyAllEvents(t, hs[..i + 1])
  {
    assert hs[..i + 1][..i] == hs[..i];
  }

  /** Dropping the handles one by one removes exactly their ids. */
  lemma {:induction false} DropAllIds<V>(m: map<nat, V>, hs: seq<Handle>)
    ensures DropAll(m, hs) == m - Ids(hs)
  {
    if hs != [] {
      var init := hs[..|hs| - 1];
      DropAllIds(m, init);
      assert hs == init + [hs[|hs| - 1]];
      DropAfterIds(m, init, hs[|hs| - 1]);
    }
  }

  /** The larger of `a` and `b`. */
  function Max(a: nat, b: nat): (m: nat)
    ensures m >= a && m >= b && (m == a || m == b)
  {
    if a < b then b else a
  }

  /** The `n` calls made from log position `at` on all succeed. */
  predicate AllSucceed(outcome: nat -> VkResult, at: nat, n: nat)
  {
    forall k :: at <= k < at + n ==> outcome(k) == VkSuccess
  }

  /** The result `vkWaitForFences` on `f` gets from the timeline `pending`, `signaled` when
      the driver would answer `upcoming`: a fence that is neither signaled nor carried by an
      outstanding submission would never signal, and the wait times out. */
  function WaitResult(pending: seq<Submission>, signaled: set<nat>, f: Handle, upcoming: VkResult): VkResult
  {
    if f.Native? && (f.id in signaled || FirstSignaling(pending, f) < |pending|) then upcoming else VkTimeout
  }

  /** The timeline `p1`, `s1` after a wait on `f` that returned `r`, from `p0`, `s0`: on a
      successful wait for an unsignaled fence every submission up to the first carrying
      it completes and signals its fence; otherwise nothing changes. */
  ghost predicate Waited(p0: seq<Submission>, s0: set<nat>, f: Handle, r: VkResult, p1: seq<Submission>, s1: set<nat>)
  {
    var k := FirstSignaling(p0, f);
    if r == VkSuccess && f.Native? && f.id !in s0 && k < |p0|
    then p1 == p0[k + 1..] && s1 == s0 + FencesOf(p0[..k + 1])
    else s1 == s0 && p1 == p0
  }

  class Driver {
    /** The result of the call made when the log has the given length. */
    const outcome: nat -> VkResult
    /** The raw image index `vkAcquireNextImageKHR` picks for the call at that log length. */
    const acquired: nat -> nat
    /** How many images the swapchain with the given id holds. */
    const imageCounts: nat -> nat
    /** The memory requirements of a buffer or image made from the given create-info; the
        Vulkan specification has them depend only on how the resource was created. */
    const requirements: CreateInfo -> MemoryRequirements

    var log: seq<Event>
    var next: nat
    var live: map<nat, CreateInfo>
    ghost var owner: map<nat, object>
    var signaled: set<nat>
    var pending: seq<Submission>
    var recorded: map<Handle, seq<Cmd>>
    var memory: map<Handle, seq<bv8>>
    /** The most submissions ever outstanding at once: it only grows, when a submission
        joins the timeline. */
    ghost var highWater: nat
    /** How many `vkWaitForFences` calls did not return `VkSuccess`. */
    ghost var failedWaits: nat
    /** Every submission the queue accepted, in order: it only grows, by one on each
        `vkQueueSubmit` that returns `VkSuccess`. */
    ghost var accepted: seq<Submission>

    ghost predicate Valid()
      reads this
    {
      owner.Keys <= live.Keys && (forall id :: id in live ==> id < next)
    }

    constructor (outcome: nat -> VkResult, acquired: nat -> nat, imageCounts: nat -> nat,
                 requirements: CreateInfo -> MemoryRequirements)
      ensures Valid()
      ensures this.outcome == outcome && this.acquired == acquired
      ensures this.imageCounts == imageCounts && this.requirements == requirements
      ensures log == [] && live == map[] && owner == map[]
      ensures signaled == {} && pending == [] && recorded == map[] && memory == map[]
      ensures highWater == 0 && failedWaits == 0 && accepted == []
    {
      this.outcome := outcome;
      this.acquired := acquired;
      this.imageCounts := imageCounts;
      this.requirements := requirements;
      log, next, live, owner := [], 0, map[], map[];
      signaled, pending, recorded, memory := {}, [], map[], map[];
      highWater, failedWaits, accepted := 0, 0, [];
    }

    /** The result the next call will get. */
    function Upcoming(): VkResult
      reads this
    {
      outcome(|log|)
    }

    /** `holder` is responsible for destroying `h`, a live object of type `t`; the null
        handle is held by everyone. */
    ghost predicate Holds(holder: object, h: Handle, t: ObjectType)
      reads this
    {
      h.Native? ==> h.id in owner && owner[h.id] == holder && h.id in live && Creates(live[h.id], t)
    }

    /** The commands recorded into `cb` since it was last begun or reset. */
    function Recorded(cb: Handle): seq<Cmd>
      reads this`recorded
    {
      if cb in recorded then recorded[cb] else []
    }

    /** The bytes seen through a host mapping of `mem`. */
    function Contents(mem: Handle): seq<bv8>
      reads this`memory
    {
      if mem in memory then memory[mem] else []
    }

    // -------------------------------------------------------------------------
    // Frames. Each method names in its `modifies` clause the fields it may change; these
    // predicates state what happens to the ownership ledger.

    /** Every responsibility of a holder other than `holder` is the same as before. */
    twostate predicate KeepsOthers(holder: object)
      reads this
    {
      forall id :: id in old(owner) && id in old(live) && old(owner)[id] != holder ==>
        id in owner && owner[id] == old(owner)[id] && id in live && live[id] == old(live)[id]
    }

    /** Every responsibility held before is the same as before. */
    twostate predicate KeepsAll()
      reads this
    {
      KeepsFrom(old(live), old(owner))
    }

    /** Every responsibility recorded in `owner0` over objects in `live0` is still there. */
    ghost predicate KeepsFrom(live0: map<nat, CreateInfo>, owner0: map<nat, object>)
      reads this
    {
      forall id :: id in owner0 && id in live0 ==>
        id in owner && owner[id] == owner0[id] && id in live && live[id] == live0[id]
    }

    // -------------------------------------------------------------------------
    // Object lifetime

    /** `vkCreate*` / `vkAllocate*` of anything but a fence: on success a new object,
        held by `holder` if given. */
    method Create(info: CreateInfo, ghost holder: Option<object>) returns (r: VkResult, h: Handle)
      requires Valid() && !info.FenceInfo?
      modifies this`log, this`next, this`live, this`owner
      ensures Valid()
      ensures r == old(Upcoming())
      ensures h.Native? <==> r == VkSuccess
      ensures h.Native? ==> h.id !in old(live) && h.id == old(next)
      ensures next == if h.Native? then old(next) + 1 else old(next)
      ensures log == old(log) + [if h.Native? then Created(h.id, info) else CreateFailed(info, r)]
      ensures live == if h.Native? then old(live)[h.id := info] else old(live)
      ensures owner == if h.Native? && holder.Some? then old(owner)[h.id := holder.value] else old(owner)
    {
      r := outcome(|log|);
      if r == VkSuccess {
        h := Native(next);
        assert next !in live && next !in owner;
        owner := if holder.Some? then owner[next := holder.value] else owner;
        log, live, next := log + [Created(next, info)], live[next := info], next + 1;
      } else {
        h := Null;
        log := log + [CreateFailed(info, r)];
      }
    }

    /** `vkCreateFence`: as `Create`, and a fence created with the signaled flag starts
        out signaled. */
    method CreateFence(flags: bv32, ghost holder: object) returns (r: VkResult, h: Handle)
      requires Valid()
      modifies this`log, this`next, this`live, this`owner, this`signaled
      ensures Valid()
      ensures r == old(Upcoming())
      ensures h.Native? <==> r == VkSuccess
      ensures h.Native? ==> h.id !in old(live) && h.id == old(next)
      ensures log == old(log) + [if h.Native? then Created(h.id, FenceInfo(flags)) else CreateFailed(FenceInfo(flags), r)]
      ensures live == if h.Native? then old(live)[h.id := FenceInfo(flags)] else old(live)
      ensures owner == if h.Native? then old(owner)[h.id := holder] else old(owner)
      ensures signaled == if h.Native? && StartsSignaled(FenceInfo(flags))
                          then old(signaled) + {h.id} else old(signaled)
    {
      r := outcome(|log|);
      if r == VkSuccess {
        h := Native(next);
        assert next !in live && next !in owner;
        owner := owner[next := holder];
        signaled := if StartsSignaled(FenceInfo(flags)) then signaled + {next} else signaled;
        log, live, next := log + [Created(next, FenceInfo(flags))], live[next := FenceInfo(flags)], next + 1;
      } else {
        h := Null;
        log := log + [CreateFailed(FenceInfo(flags), r)];
      }
    }

    /** `vkDestroy*` / `vkFree*`: only the holder of a live object of the right type may
        destroy it, so a second destroy of the same handle is a verification error. */
    method Destroy(t: ObjectType, h: Handle, ghost holder: object)
      requires Valid() && h.Native? && Holds(holder, h, t)
      modifies this`log, this`live, this`owner
      ensures Valid()
      ensures log == old(log) + [Destroyed(t, h.id)]
      ensures live == old(live) - {h.id} && owner == old(owner) - {h.id}
    {
      live := live - {h.id};
      owner := owner - {h.id};
      log := log + [Destroyed(t, h.id)];
    }

    /** `holder` is responsible for every non-null entry of `hs`, all of type `t` and all
        distinct: a vector of handles a wrapper destroys in its destructor loop. */
    ghost predicate HoldsAll(holder: object, hs: seq<Handle>, t: ObjectType)
      reads this
    {
      (forall k :: 0 <= k < |hs| ==> Holds(holder, hs[k], t)) && DistinctNative(hs)
    }

    /** `vkCreate*` into entry `i` of a vector of handles of type `t` that `holder` is
        responsible for: as `Create`, and the entry is the new handle on success. */
    method CreateEntry(info: CreateInfo, holder: object, hs: seq<Handle>, i: nat, ghost t: ObjectType)
      returns (r: VkResult, hs': seq<Handle>)
      requires Valid() && !info.FenceInfo? && Creates(info, t)
      requires HoldsAll(holder, hs, t) && i < |hs| && hs[i] == Null
      modifies this`log, this`next, this`live, this`owner
      ensures Valid() && HoldsAll(holder, hs', t) && |hs'| == |hs|
      ensures r == old(Upcoming())
      ensures r == VkSuccess ==> hs' == hs[i := Native(old(next))] && old(next) !in old(live)
      ensures r != VkSuccess ==> hs' == hs
      ensures log == old(log) + [if r == VkSuccess then Created(old(next), info) else CreateFailed(info, r)]
      ensures live == if r == VkSuccess then old(live)[old(next) := info] else old(live)
      ensures owner == if r == VkSuccess then old(owner)[old(next) := holder] else old(owner)
    {
      var h;
      r, h := Create(info, Some(holder));
      hs' := if r == VkSuccess then hs[i := h] else hs;
      if r == VkSuccess {
        assert forall k :: 0 <= k < |hs| && hs[k].Native? ==> hs[k].id in old(live);
      }
    }

    /** The state after the creation loop over `infos` has filled its first `i` entries,
        starting from ledgers `live0`, `owner0`. */
    ghost predicate CreatedUpTo(infos: seq<CreateInfo>, holder: object, t: ObjectType, i: nat, hs: seq<Handle>,
                                live0: map<nat, CreateInfo>, owner0: map<nat, object>)
      reads this
    {
      i <= |infos| == |hs| && Valid() && HoldsAll(holder, hs, t) && KeepsFrom(live0, owner0) &&
      (forall k :: 0 <= k < i ==> hs[k].Native? && live[hs[k].id] == infos[k]) &&
      (forall k :: i <= k < |hs| ==> hs[k] == Null)
    }

    /** One round of the creation loop: entry `i` is created from `infos[i]`. */
    method CreateStep(infos: seq<CreateInfo>, holder: object, ghost t: ObjectType, i: nat, hs: seq<Handle>,
                      ghost live0: map<nat, CreateInfo>, ghost owner0: map<nat, object>)
      returns (r: VkResult, hs': seq<Handle>)
      requires CreatedUpTo(infos, holder, t, i, hs, live0, owner0) && i < |infos|
      requires !infos[i].FenceInfo? && Creates(infos[i], t)
      modifies this`log, this`next, this`live, this`owner
      ensures r == old(Upcoming()) && |log| == old(|log|) + 1
      ensures r == VkSuccess ==> CreatedUpTo(infos, holder, t, i + 1, hs', live0, owner0)
      ensures Valid() && HoldsAll(holder, hs', t) && |hs'| == |hs| && KeepsFrom(live0, owner0)
    {
      r, hs' := CreateEntry(infos[i], holder, hs, i, t);
    }

    /** A wrapper's creation loop over a vector of handles of type `t`: a vector of null
        handles, one per info, filled in order by `vkCreate*` until a call fails. On
        success every entry is the object created from its info. */
    method CreateAll(infos: seq<CreateInfo>, holder: object, ghost t: ObjectType) returns (r: VkResult, hs: seq<Handle>)
      requires Valid() && forall k :: 0 <= k < |infos| ==> !infos[k].FenceInfo? && Creates(infos[k], t)
      modifies this`log, this`next, this`live, this`owner
      ensures Valid() && HoldsAll(holder, hs, t) && |hs| == |infos|
      ensures r == VkSuccess <==> AllSucceed(outcome, old(|log|), |infos|)
      ensures r == VkSuccess ==> |log| == old(|log|) + |infos|
      ensures r == VkSuccess ==> forall k :: 0 <= k < |hs| ==> hs[k].Native? && live[hs[k].id] == infos[k]
      ensures KeepsAll()
    {
      hs := seq(|infos|, _ => Null);
      var i := 0;
      while i < |infos|
        invariant CreatedUpTo(infos, holder, t, i, hs, old(live), old(owner))
        invariant |log| == old(|log|) + i && AllSucceed(outcome, old(|log|), i)
      {
        r, hs := CreateStep(infos, holder, t, i, hs, old(live), old(owner));
        if r != VkSuccess {
          assert outcome(old(|log|) + i) != VkSuccess;
          return;
        }
        i := i + 1;
      }
      r := VkSuccess;
    }

    /** The state after the destructor loop over `hs` has handled its first `i` entries,
        starting from log `log0` and ledgers `live0`, `owner0`. */
    ghost predicate DestroyedUpTo(t: ObjectType, hs: seq<Handle>, holder: object, i: nat,
                                  log0: seq<Event>, live0: map<nat, CreateInfo>, owner0: map<nat, object>)
      reads this
    {
      i <= |hs| && Valid() && (forall k :: i <= k < |hs| ==> Holds(holder, hs[k], t)) &&
      log == log0 + DestroyAllEvents(t, hs[..i]) &&
      live == DropAll(live0, hs[..i]) && owner == DropAll(owner0, hs[..i])
    }

    /** One round of the destructor loop: entry `i` is destroyed if it is not null. */
    method DestroyStep(t: ObjectType, hs: seq<Handle>, ghost holder: object, i: nat,
                       ghost log0: seq<Event>, ghost live0: map<nat, CreateInfo>, ghost owner0: map<nat, object>)
      requires DestroyedUpTo(t, hs, holder, i, log0, live0, owner0) && i < |hs| && DistinctNative(hs)
      modifies this`log, this`live, this`owner
      ensures DestroyedUpTo(t, hs, holder, i + 1, log0, live0, owner0)
    {
      if hs[i].Native? {
        Destroy(t, hs[i], holder);
      }
      DestroyAllEventsStep(log0, t, hs, i);
      DropAllStep(live0, hs, i);
      DropAllStep(owner0, hs, i);
    }

    /** A wrapper's destructor loop over a vector of handles of type `t`: each non-null
        entry in turn is destroyed and nulled. */
    method DestroyAll(t: ObjectType, hs: seq<Handle>, ghost holder: object) returns (hs': seq<Handle>)
      requires Valid() && HoldsAll(holder, hs, t)
      modifies this`log, this`live, this`owner
      ensures Valid() && |hs'| == |hs| && forall k :: 0 <= k < |hs'| ==> hs'[k] == Null
      ensures log == old(log) + DestroyAllEvents(t, hs)
      ensures live == old(live) - Ids(hs) && owner == old(owner) - Ids(hs)
    {
      var i := 0;
      assert hs[..0] == [];
      while i < |hs|
        invariant DestroyedUpTo(t, hs, holder, i, old(log), old(live), old(owner))
      {
        DestroyStep(t, hs, holder, i, old(log), old(live), old(owner));
        i := i + 1;
      }
      assert hs[..i] == hs;
      DropAllIds(old(live), hs);
      DropAllIds(old(owner), hs);
      hs' := seq(|hs|, _ => Null);
    }

    /** The responsibility for object `id` passes to `holder` (a C++ move). */
    ghost method Transfer(id: nat, holder: object)
      requires Valid() && id in owner
      modifies this`owner
      ensures Valid()
      ensures owner == old(owner)[id := holder]
    {
      owner := owner[id := holder];
    }

    /** The responsibility for every non-null handle of `hs` passes from `from` to `to`. */
    ghost method TransferAll(hs: seq<Handle>, ts: seq<ObjectType>, from: object, to: object)
      requires Valid() && |hs| == |ts|
      requires forall k :: 0 <= k < |hs| ==> Holds(from, hs[k], ts[k])
      modifies this`owner
      ensures Valid()
      ensures forall k :: 0 <= k < |hs| ==> Holds(to, hs[k], ts[k])
      ensures owner.Keys == old(owner).Keys && KeepsOthers(from)
    {
      var i := 0;
      while i < |hs|
        invariant 0 <= i <= |hs| && Valid()
        invariant forall k :: 0 <= k < i ==> Holds(to, hs[k], ts[k])
        invariant forall k :: i <= k < |hs| ==> Holds(from, hs[k], ts[k]) || Holds(to, hs[k], ts[k])
        invariant owner.Keys == old(owner).Keys && KeepsOthers(from)
      {
        if hs[i].Native? {
          Transfer(hs[i].id, to);
        }
        i := i + 1;
      }
    }

    /** The responsibility for every entry of a vector of handles of type `t` passes from
        `from` to `to` (a C++ move of the vector). */
    ghost method TransferEntries(hs: seq<Handle>, t: ObjectType, from: object, to: object)
      requires Valid() && HoldsAll(from, hs, t)
      modifies this`owner
      ensures Valid() && HoldsAll(to, hs, t)
      ensures owner.Keys == old(owner).Keys && KeepsOthers(from)
    {
      TransferAll(hs, seq(|hs|, _ => t), from, to);
    }

    /** `vkGetSwapchainImagesKHR` with a null array: the number of images. */
    method QuerySwapchainImageCount(swapchain: Handle) returns (r: VkResult, count: nat)
      modifies this`log
      ensures r == old(Upcoming())
      ensures count == if swapchain.Native? then imageCounts(swapchain.id) else 0
      ensures log == old(log) + [Called(VkGetSwapchainImages(swapchain), r)]
    {
      r := outcome(|log|);
      count := if swapchain.Native? then imageCounts(swapchain.id) else 0;
      log := log + [Called(VkGetSwapchainImages(swapchain), r)];
    }

    /** `vkGetSwapchainImagesKHR` into an array of `count` entries: on success `count` new
        image handles. They belong to the swapchain and are released with it, so they are
        not among the objects a wrapper destroys (`live`). */
    method QuerySwapchainImages(swapchain: Handle, count: nat) returns (r: VkResult, images: seq<Handle>)
      requires Valid()
      modifies this`log, this`next
      ensures Valid()
      ensures r == old(Upcoming())
      ensures r == VkSuccess ==> |images| == count
      ensures r != VkSuccess ==> images == []
      ensures forall k :: 0 <= k < |images| ==> images[k] == Native(old(next) + k)
      ensures next == old(next) + |images|
      ensures log == old(log) + [Called(VkGetSwapchainImages(swapchain), r)]
    {
      r := outcome(|log|);
      if r == VkSuccess {
        var first: nat := next;
        images := seq(count, (k: nat) => Native(first + k));
        next := next + count;
      } else {
        images := [];
      }
      log := log + [Called(VkGetSwapchainImages(swapchain), r)];
    }

    // -------------------------------------------------------------------------
    // Fences, submissions and the GPU timeline

    /** `vkWaitForFences` on one fence with an unbounded timeout. A fence that is neither
        signaled nor signaled by a pending submission would never signal: the mock
        reports `VkTimeout` instead of blocking forever. On success everything submitted
        up to the first submission that signals the fence has completed. */
    method WaitForFence(f: Handle) returns (r: VkResult)
      modifies this`log, this`signaled, this`pending, this`failedWaits
      ensures r == WaitResult(old(pending), old(signaled), f, old(Upcoming()))
      ensures Waited(old(pending), old(signaled), f, r, pending, signaled)
      ensures failedWaits == if r == VkSuccess then old(failedWaits) else old(failedWaits) + 1
      ensures log == old(log) + [Called(VkWaitForFences(f), r)]
    {
      var k := FirstSignaling(pending, f);
      r := WaitResult(pending, signaled, f, outcome(|log|));
      if r == VkSuccess && f.Native? && f.id !in signaled && k < |pending| {
        signaled := signaled + FencesOf(pending[..k + 1]);
        pending := pending[k + 1..];
      }
      if r != VkSuccess {
        failedWaits := failedWaits + 1;
      }
      log := log + [Called(VkWaitForFences(f), r)];
    }

    /** `vkResetFences` on one fence: on success the fence is unsignaled. */
    method ResetFence(f: Handle) returns (r: VkResult)
      modifies this`log, this`signaled
      ensures r == old(Upcoming())
      ensures signaled == if r == VkSuccess && f.Native? then old(signaled) - {f.id} else old(signaled)
      ensures log == old(log) + [Called(VkResetFences(f), r)]
    {
      r := outcome(|log|);
      if r == VkSuccess && f.Native? {
        signaled := signaled - {f.id};
      }
      log := log + [Called(VkResetFences(f), r)];
    }

    /** `vkQueueSubmit` with one submit info: on success it joins the timeline. */
    method Submit(s: Submission) returns (r: VkResult)
      modifies this`log, this`pending, this`highWater, this`accepted
      ensures r == old(Upcoming())
      ensures pending == if r == VkSuccess then old(pending) + [s] else old(pending)
      ensures accepted == if r == VkSuccess then old(accepted) + [s] else old(accepted)
      ensures highWater == if r == VkSuccess then Max(old(highWater), |pending|) else old(highWater)
      ensures log == old(log) + [Called(VkQueueSubmit(s), r)]
    {
      r := outcome(|log|);
      if r == VkSuccess {
        pending := pending + [s];
        highWater := Max(highWater, |pending|);
        accepted := accepted + [s];
      }
      log := log + [Called(VkQueueSubmit(s), r)];
    }

    /** `vkQueueWaitIdle` / `vkDeviceWaitIdle`: on success the (single, in-order) timeline
        has drained and every fence it carried is signaled. */
    method WaitIdle(c: Call) returns (r: VkResult)
      requires c.VkQueueWaitIdle? || c.VkDeviceWaitIdle?
      modifies this`log, this`signaled, this`pending
      ensures r == old(Upcoming())
      ensures r == VkSuccess ==> pending == [] && signaled == old(signaled) + FencesOf(old(pending))
      ensures r != VkSuccess ==> signaled == old(signaled) && pending == old(pending)
      ensures log == old(log) + [Called(c, r)]
    {
      r := outcome(|log|);
      if r == VkSuccess {
        signaled := signaled + FencesOf(pending);
        pending := [];
      }
      log := log + [Called(c, r)];
    }

    /** `vkAcquireNextImageKHR`: on success an index below the swapchain's image count (a
        swapchain without images reports an error). A given fence is signaled. */
    method Acquire(swapchain: Handle, semaphore: Handle, fence: Handle, imageCount: nat)
      returns (r: VkResult, index: nat)
      modifies this`log, this`signaled
      ensures r == if imageCount == 0 then VkError(-1000001004) else old(Upcoming())
      ensures r == VkSuccess ==> index < imageCount && index == old(acquired(|log|)) % imageCount
      ensures signaled == if r == VkSuccess && fence.Native? then old(signaled) + {fence.id} else old(signaled)
      ensures log == old(log) + [Called(VkAcquireNextImage(swapchain, semaphore, fence), r)]
    {
      r := if imageCount == 0 then VkError(-1000001004) else outcome(|log|);
      index := if imageCount == 0 then 0 else acquired(|log|) % imageCount;
      if r == VkSuccess && fence.Native? {
        signaled := signaled + {fence.id};
      }
      log := log + [Called(VkAcquireNextImage(swapchain, semaphore, fence), r)];
    }

    /** A call whose only effect is its log entry: presenting, ending a command buffer,
        binding memory, unmapping, updating descriptor sets. */
    method Invoke(c: Call) returns (r: VkResult)
      requires c.VkQueuePresent? || c.VkEndCommandBuffer? || c.VkBindMemory? || c.VkMapMemory? ||
               c.VkUnmapMemory? || c.VkUpdateDescriptorSets?
      modifies this`log
      ensures r == old(Upcoming())
      ensures log == old(log) + [Called(c, r)]
    {
      r := outcome(|log|);
      log := log + [Called(c, r)];
    }

    // -------------------------------------------------------------------------
    // Command buffers and host-visible memory

    /** `vkBeginCommandBuffer` / `vkResetCommandBuffer`: on success the command buffer is
        empty again (the pool allows individual resets, so beginning resets implicitly). */
    method Restart(c: Call) returns (r: VkResult)
      requires c.VkBeginCommandBuffer? || c.VkResetCommandBuffer?
      modifies this`log, this`recorded
      ensures r == old(Upcoming())
      ensures recorded == if r == VkSuccess then old(recorded)[c.commandBuffer := []] else old(recorded)
      ensures log == old(log) + [Called(c, r)]
    {
      r := outcome(|log|);
      if r == VkSuccess {
        recorded := recorded[c.commandBuffer := []];
      }
      log := log + [Called(c, r)];
    }

    /** `vkCmd*`: appends commands to a command buffer; these calls return nothing and are
        not logged. */
    method Record(cb: Handle, cmds: seq<Cmd>)
      modifies this`recorded
      ensures recorded == old(recorded)[cb := old(Recorded(cb)) + cmds]
    {
      recorded := recorded[cb := Recorded(cb) + cmds];
    }

    /** `memcpy` through the pointer a successful `vkMapMemory` returned: the first
        `|data|` bytes of the memory become `data`, the rest are kept. */
    method WriteMapped(mem: Handle, data: seq<bv8>)
      modifies this`memory
      ensures memory == old(memory)[mem := data + if |data| <= |old(Contents(mem))| then old(Contents(mem))[|data|..] else []]
    {
      var before := Contents(mem);
      memory := memory[mem := data + if |data| <= |before| then before[|data|..] else []];
    }
  }
}
