/** The application in `main.cpp`: the per-slot setup loop, the one-shot texture upload,
    the descriptor writes and the render loop with its ring of `MAX_FRAMES_IN_FLIGHT`
    frame slots, each guarded by a fence that is waited on before the slot is reused. */
module App {
  import opened Vk
  import opened Gpu
  import opened Devices
  import opened Buffers
  import opened Synchronous
  import opened Descriptors
  import opened Swapchains
  import opened Framebuffers
  import opened Commands
  import opened PhysicalDevices

  const MAX_FRAMES_IN_FLIGHT: nat := 2

  /** `sizeof(UniformBufferObject)`: three 4 x 4 matrices of `float`. */
  const UBO_SIZE: uint64 := 192

  // ---------------------------------------------------------------------------
  // The fence ledger of the frame slots

  /** The handles of the slot fences: a projection of the `fence` field, as `SetHandles` and
      `BufferHandles` are of theirs, stated index by index. */
  function FenceHandles(fences: seq<Fence>): (hs: seq<Handle>)
    reads fences
    ensures |hs| == |fences| && forall k :: 0 <= k < |fences| ==> hs[k] == fences[k].fence
  {
    if fences == [] then [] else [fences[0].fence] + FenceHandles(fences[1..])
  }

  /** The invariant of the slot fences `fences` against the GPU timeline: they are real
      fences; every outstanding submission carries one of them, no two carry
      the same one, and none of them is signaled yet; and every slot fence is either
      signaled or carried by an outstanding submission, so a wait on it returns. */
  ghost predicate InFlight(pending: seq<Submission>, signaled: set<nat>, fences: seq<Handle>)
  {
    (forall k :: 0 <= k < |fences| ==> fences[k].Native?) &&
    (forall j :: 0 <= j < |pending| ==>
       pending[j].fence in fences && pending[j].fence.Native? && pending[j].fence.id !in signaled) &&
    (forall j, l :: 0 <= j < l < |pending| ==> pending[j].fence != pending[l].fence) &&
    (forall k :: 0 <= k < |fences| ==> fences[k].id in signaled || FirstSignaling(pending, fences[k]) < |pending|)
  }

  /** Slot `f` is free: its fence is unsignaled and no outstanding submission carries it,
      and signaling it would restore the invariant. */
  ghost predicate SlotFree(pending: seq<Submission>, signaled: set<nat>, fences: seq<Handle>, f: nat)
  {
    f < |fences| && fences[f].Native? && fences[f].id !in signaled &&
    InFlight(pending, signaled + {fences[f].id}, fences)
  }

  /** A submission carrying fence `h` makes `FirstSignaling` find one. */
  lemma Carried(p: seq<Submission>, j: nat, h: Handle)
    requires j < |p| && p[j].fence == h
    ensures FirstSignaling(p, h) <= j
  {
  }

  /** The submissions left after the first `k + 1` complete keep their fences apart from
      those that completed, and stay unsignaled. */
  lemma {:induction false} RestStaysPending(p: seq<Submission>, signaled: set<nat>, fences: seq<Handle>, k: nat)
    requires InFlight(p, signaled, fences) && k < |p|
    ensures var q, s := p[k + 1..], signaled + FencesOf(p[..k + 1]);
      forall j :: 0 <= j < |q| ==> q[j].fence in fences && q[j].fence.Native? && q[j].fence.id !in s
  {
    var done, q := p[..k + 1], p[k + 1..];
    forall j | 0 <= j < |q|
      ensures q[j].fence.id !in FencesOf(done)
    {
      assert q[j] == p[k + 1 + j];
      forall i | 0 <= i < |done|
        ensures done[i].fence != Native(q[j].fence.id)
      {
        assert done[i] == p[i];
      }
    }
    forall j | 0 <= j < |q|
      ensures q[j].fence in fences && q[j].fence.Native? && q[j].fence.id !in signaled
    {
      assert q[j] == p[k + 1 + j];
    }
  }

  /** After the first `k + 1` submissions complete, every slot fence is signaled or still
      carried by a remaining submission. */
  lemma {:induction false} RestCovers(p: seq<Submission>, signaled: set<nat>, fences: seq<Handle>, k: nat)
    requires k < |p|
    requires forall m :: 0 <= m < |fences| ==>
      fences[m].Native? && (fences[m].id in signaled || FirstSignaling(p, fences[m]) < |p|)
    ensures var q, s := p[k + 1..], signaled + FencesOf(p[..k + 1]);
      forall m :: 0 <= m < |fences| ==> fences[m].id in s || FirstSignaling(q, fences[m]) < |q|
  {
    var done, q := p[..k + 1], p[k + 1..];
    forall m | 0 <= m < |fences| && fences[m].id !in signaled
      ensures fences[m].id in FencesOf(done) || FirstSignaling(q, fences[m]) < |q|
    {
      var km := FirstSignaling(p, fences[m]);
      if km <= k {
        assert done[km].fence == fences[m];
      } else {
        assert q[km - k - 1] == p[km];
        Carried(q, km - k - 1, fences[m]);
      }
    }
  }

  /** A suffix of submissions carrying distinct fences carries distinct fences. */
  lemma {:induction false} RestDistinct(p: seq<Submission>, k: nat)
    requires k < |p|
    requires forall j, l :: 0 <= j < l < |p| ==> p[j].fence != p[l].fence
    ensures var q := p[k + 1..]; forall j, l :: 0 <= j < l < |q| ==> q[j].fence != q[l].fence
  {
    var q := p[k + 1..];
    forall j, l | 0 <= j < l < |q|
      ensures q[j].fence != q[l].fence
    {
      assert q[j] == p[k + 1 + j] && q[l] == p[k + 1 + l];
    }
  }

  /** Waiting on the fence of slot `f` under the invariant: the wait cannot time out; if
      the fence was signaled nothing is pending on it; otherwise the timeline up to the
      first submission carrying it completes, which keeps the invariant and signals it. */
  lemma {:induction false} WaitKeepsInFlight(p: seq<Submission>, signaled: set<nat>, fences: seq<Handle>, f: nat)
    requires InFlight(p, signaled, fences) && f < |fences|
    ensures var h, k := fences[f], FirstSignaling(p, fences[f]);
      h.Native? && (h.id in signaled || k < |p|) &&
      (h.id in signaled ==> k == |p|) &&
      (h.id !in signaled ==>
         InFlight(p[k + 1..], signaled + FencesOf(p[..k + 1]), fences) && h.id in FencesOf(p[..k + 1]))
  {
    var h, k := fences[f], FirstSignaling(p, fences[f]);
    assert h.Native? && (h.id in signaled || k < |p|);
    if h.id in signaled {
      assert forall j :: 0 <= j < |p| ==> p[j].fence.id !in signaled;
    } else {
      assert p[..k + 1][k].fence == h;
      RestStaysPending(p, signaled, fences, k);
      RestCovers(p, signaled, fences, k);
      RestDistinct(p, k);
    }
  }

  /** What a fence wait on slot `f` leaves: the outstanding submissions lose a prefix.
      Under the invariant, the wait returns the driver's answer and not the timeout of a
      fence nothing will signal, and when it succeeds the invariant holds again and the
      slot's fence is signaled. */
  lemma {:induction false} WaitOutcome(p0: seq<Submission>, s0: set<nat>, fences: seq<Handle>, f: nat,
                                       upcoming: VkResult, result: VkResult, p1: seq<Submission>, s1: set<nat>)
    requires f < |fences|
    requires result == WaitResult(p0, s0, fences[f], upcoming) && Waited(p0, s0, fences[f], result, p1, s1)
    ensures |p1| <= |p0| && p1 == p0[|p0| - |p1|..]
    ensures InFlight(p0, s0, fences) ==>
      result == upcoming && (result == VkSuccess ==> InFlight(p1, s1, fences) && fences[f].id in s1)
  {
    if InFlight(p0, s0, fences) {
      WaitKeepsInFlight(p0, s0, fences, f);
    }
  }

  /** Resetting the fence of slot `f` after the wait has signaled it frees the slot. */
  lemma ResetFreesSlot(p: seq<Submission>, signaled: set<nat>, fences: seq<Handle>, f: nat)
    requires InFlight(p, signaled, fences) && f < |fences| && fences[f].id in signaled
    ensures SlotFree(p, signaled - {fences[f].id}, fences, f)
  {
    assert signaled - {fences[f].id} + {fences[f].id} == signaled;
  }

  /** Submitting on a free slot with its fence restores the invariant. */
  lemma {:induction false} SubmitKeepsInFlight(p: seq<Submission>, signaled: set<nat>, fences: seq<Handle>, f: nat, s: Submission)
    requires SlotFree(p, signaled, fences, f) && s.fence == fences[f]
    ensures InFlight(p + [s], signaled, fences)
  {
    var h := fences[f];
    var q := p + [s];
    assert q[|p|] == s;
    forall j | 0 <= j < |p|
      ensures p[j].fence != h
    {
      assert p[j].fence.id !in signaled + {h.id};
    }
    forall m | 0 <= m < |fences|
      ensures fences[m].id in signaled || FirstSignaling(q, fences[m]) < |q|
    {
      if fences[m] == h {
        Carried(q, |p|, h);
      } else if fences[m].id !in signaled {
        var km := FirstSignaling(p, fences[m]);
        assert q[km] == p[km];
        Carried(q, km, fences[m]);
      }
    }
  }

  /** The handles of a sequence, as a set, are no more than its length. */
  lemma {:induction false} ElementsBound(hs: seq<Handle>)
    ensures |set h | h in hs| <= |hs|
  {
    if hs != [] {
      ElementsBound(hs[1..]);
      assert (set h | h in hs) == {hs[0]} + (set h | h in hs[1..]);
    }
  }

  /** Submissions carrying distinct fences drawn from `s` are no more than `|s|`. */
  lemma {:induction false} DistinctWithin(p: seq<Submission>, s: set<Handle>)
    requires forall j :: 0 <= j < |p| ==> p[j].fence in s
    requires forall j, l :: 0 <= j < l < |p| ==> p[j].fence != p[l].fence
    ensures |p| <= |s|
  {
    if p != [] {
      var rest := p[1..];
      forall j | 0 <= j < |rest|
        ensures rest[j].fence in s - {p[0].fence}
      {
        assert rest[j] == p[j + 1];
      }
      forall j, l | 0 <= j < l < |rest|
        ensures rest[j].fence != rest[l].fence
      {
        assert rest[j] == p[j + 1] && rest[l] == p[l + 1];
      }
      DistinctWithin(rest, s - {p[0].fence});
    }
  }

  /** Under the invariant, no more submissions are outstanding than there are slots. */
  lemma InFlightBound(p: seq<Submission>, signaled: set<nat>, fences: seq<Handle>)
    requires InFlight(p, signaled, fences)
    ensures |p| <= |fences|
  {
    DistinctWithin(p, set h | h in fences);
    ElementsBound(fences);
  }

  // ---------------------------------------------------------------------------
  // One frame

  /** The objects the render loop uses that are not per slot. The render pass, the
      pipeline and its layout belong to the graphics pipeline, which is not part of this
      model, so they are handles. */
  datatype Scene = Scene(
    device: Device, swapchain: Swapchain, framebuffer: Framebuffer,
    renderPass: Handle, pipeline: Handle, pipelineLayout: Handle,
    vertexBuffer: Buffer, indexBuffer: Buffer, indexCount: uint32, presentQueue: Queue)

  /** The per-slot vectors. */
  datatype Slots = Slots(
    commandBuffers: seq<CommandBuffer>, descriptorSets: seq<DescriptorSet>, inFlight: seq<Fence>,
    imageAvailable: seq<Semaphore>, renderFinished: seq<Semaphore>)

  /** What the render loop relies on: one driver throughout, a slot in every vector for each
      frame in flight, and a framebuffer for every swapchain image. */
  ghost predicate Ready(scene: Scene, slots: Slots)
    reads scene.swapchain, scene.framebuffer
  {
    var d := scene.device.drv;
    scene.swapchain.drv == d && scene.framebuffer.drv == d &&
    |slots.commandBuffers| >= MAX_FRAMES_IN_FLIGHT && |slots.descriptorSets| >= MAX_FRAMES_IN_FLIGHT &&
    |slots.inFlight| == MAX_FRAMES_IN_FLIGHT &&
    |slots.imageAvailable| >= MAX_FRAMES_IN_FLIGHT && |slots.renderFinished| >= MAX_FRAMES_IN_FLIGHT &&
    (forall k :: 0 <= k < |slots.commandBuffers| ==> slots.commandBuffers[k].drv == d) &&
    (forall k :: 0 <= k < |slots.inFlight| ==> slots.inFlight[k].drv == d) &&
    |scene.framebuffer.framebuffers| == |scene.swapchain.images|
  }

  /** The semaphore the frame in slot `f` signals and presentation waits on, as written
      (`main.cpp` line 250): taken from the image-available vector. */
  function SignalSemaphoreAsWritten(slots: Slots, f: nat): Semaphore
    requires f < |slots.imageAvailable|
  {
    slots.imageAvailable[f]
  }

  /** The semaphore the frame in slot `f` is meant to signal: its render-finished one. */
  function SignalSemaphoreIntended(slots: Slots, f: nat): Semaphore
    requires f < |slots.renderFinished|
  {
    slots.renderFinished[f]
  }

  /** The submission of a frame: its command buffer on its queue, waiting on `wait` at the
      colour-output stage, signalling `signal` and, when it completes, `fence`. */
  function FrameSubmission(queue: Queue, commandBuffer: Handle, wait: Handle, signal: Handle, fence: Handle): Submission
  {
    Submission(queue.handle, commandBuffer, [wait], STAGE_COLOR_ATTACHMENT_OUTPUT, [signal], fence)
  }

  /** The submission of slot `f`'s frame as the loop makes it: its command buffer on its
      queue, waiting on its image-available semaphore and signalling that same semaphore
      (`SignalSemaphoreAsWritten`) and its fence. */
  function SlotSubmission(slots: Slots, f: nat): Submission
    requires f < |slots.commandBuffers| && f < |slots.imageAvailable| && f < |slots.inFlight|
    reads slots.commandBuffers[f], slots.imageAvailable[f], slots.inFlight[f]
  {
    var cb := slots.commandBuffers[f];
    FrameSubmission(cb.queue, cb.commandBuffer, slots.imageAvailable[f].semaphore,
                    SignalSemaphoreAsWritten(slots, f).semaphore, slots.inFlight[f].fence)
  }

  /** The submission slot `f`'s frame is meant to make: signalling its render-finished
      semaphore instead. */
  function SlotSubmissionIntended(slots: Slots, f: nat): Submission
    requires f < |slots.commandBuffers| && f < |slots.imageAvailable| && f < |slots.renderFinished| && f < |slots.inFlight|
    reads slots.commandBuffers[f], slots.imageAvailable[f], slots.renderFinished[f], slots.inFlight[f]
  {
    var cb := slots.commandBuffers[f];
    FrameSubmission(cb.queue, cb.commandBuffer, slots.imageAvailable[f].semaphore,
                    SignalSemaphoreIntended(slots, f).semaphore, slots.inFlight[f].fence)
  }

  /** As written, the frame's submission waits on the very semaphore it signals. */
  lemma AsWrittenSignalIsTheWait(slots: Slots, f: nat)
    requires f < |slots.commandBuffers| && f < |slots.imageAvailable| && f < |slots.inFlight|
    ensures var s := SlotSubmission(slots, f);
      s.waits == s.signals && s.signals == [slots.imageAvailable[f].semaphore]
  {
  }

  /** As intended, a slot whose two semaphores are distinct submits with a signal
      semaphore other than the one it waits on. */
  lemma {:induction false} IntendedSignalIsNotTheWait(slots: Slots, f: nat)
    requires f < |slots.commandBuffers| && f < |slots.imageAvailable| && f < |slots.renderFinished| && f < |slots.inFlight|
    requires slots.imageAvailable[f].semaphore != slots.renderFinished[f].semaphore
    ensures var s := SlotSubmissionIntended(slots, f);
      s.waits != s.signals && s.waits == [slots.imageAvailable[f].semaphore] &&
      s.signals == [slots.renderFinished[f].semaphore]
  {
    var s := SlotSubmissionIntended(slots, f);
    assert s.waits[0] != s.signals[0];
  }

  /** The commands of one frame, between `vkBeginCommandBuffer` and `vkEndCommandBuffer`. */
  function FrameCommands(scene: Scene, framebuffer: Handle, extent: Extent2D, descriptorSet: Handle): seq<Cmd>
    reads scene.vertexBuffer, scene.indexBuffer
  {
    [Cmd.BeginRenderPass(scene.renderPass, framebuffer, extent),
     BindPipeline(scene.pipeline),
     Cmd.BindVertexBuffer(scene.vertexBuffer.buffer),
     Cmd.BindIndexBuffer(scene.indexBuffer.buffer, INDEX_TYPE_UINT16),
     BindDescriptorSet(scene.pipelineLayout, descriptorSet),
     SetViewport(extent),
     SetScissor(extent),
     Cmd.DrawIndexed(scene.indexCount, 1),
     Cmd.EndRenderPass]
  }

  /** A command that binds state for the draw. */
  predicate Binds(c: Cmd)
  {
    c.BindPipeline? || c.BindVertexBuffer? || c.BindIndexBuffer? || c.BindDescriptorSet?
  }

  /** A frame's draw starts the render pass before anything is bound, binds pipeline,
      geometry and descriptor set before drawing, draws once over the whole extent, and
      ends the render pass last. */
  lemma FrameCommandsOrder(scene: Scene, framebuffer: Handle, extent: Extent2D, descriptorSet: Handle)
    ensures var cmds := FrameCommands(scene, framebuffer, extent, descriptorSet);
      |cmds| == 9 && cmds[0].BeginRenderPass? && cmds[0].framebuffer == framebuffer && cmds[|cmds| - 1].EndRenderPass? &&
      (forall k :: 0 <= k < |cmds| && cmds[k].DrawIndexed? ==> k == 7) &&
      (forall k :: 0 <= k < |cmds| && Binds(cmds[k]) ==> 0 < k < 7) &&
      cmds[4].descriptorSet == descriptorSet && cmds[5].area == extent && cmds[6].area == extent
  {
  }

  /** Appending `more` to a buffer whose recording is `done` in `m0[cb := done]`. */
  lemma Appended(m0: map<Handle, seq<Cmd>>, cb: Handle, done: seq<Cmd>, more: seq<Cmd>)
    ensures var m := m0[cb := done];
      (if cb in m then m[cb] else []) == done && m[cb := done + more] == m0[cb := done + more]
  {
  }

  /** Six single appends and a triple one make one append of the nine commands. */
  lemma {:induction false} NineAppends(a: seq<Cmd>, c0: Cmd, c1: Cmd, c2: Cmd, c3: Cmd, c4: Cmd, c5: Cmd, c6: Cmd, c7: Cmd, c8: Cmd)
    ensures a + [c0] + [c1] + [c2] + [c3] + [c4] + [c5, c6, c7] + [c8] == a + [c0, c1, c2, c3, c4, c5, c6, c7, c8]
  {
    assert [c0] + [c1] + [c2] + [c3] + [c4] + [c5, c6, c7] + [c8] == [c0, c1, c2, c3, c4, c5, c6, c7, c8];
  }

  /** Lines 262-268: the render pass of the frame on framebuffer `imageIndex`, recorded
      after what the buffer already holds. */
  method RecordDraw(scene: Scene, cb: CommandBuffer, descriptorSet: DescriptorSet, imageIndex: nat)
    requires imageIndex < |scene.framebuffer.framebuffers|
    modifies cb.drv`recorded
    ensures cb.drv.recorded == old(cb.drv.recorded)[cb.commandBuffer := old(cb.drv.Recorded(cb.commandBuffer)) +
      FrameCommands(scene, scene.framebuffer.framebuffers[imageIndex], scene.swapchain.extent, descriptorSet.descriptorSet)]
  {
    var d, h := cb.drv, cb.commandBuffer;
    ghost var m0, a := d.recorded, d.Recorded(h);
    var fb, extent := scene.framebuffer.framebuffers[imageIndex], scene.swapchain.extent;
    var c0, c1 := Cmd.BeginRenderPass(scene.renderPass, fb, extent), BindPipeline(scene.pipeline);
    var c2 := Cmd.BindVertexBuffer(scene.vertexBuffer.buffer);
    var c3 := Cmd.BindIndexBuffer(scene.indexBuffer.buffer, INDEX_TYPE_UINT16);
    var c4 := BindDescriptorSet(scene.pipelineLayout, descriptorSet.descriptorSet);
    var c5, c6, c7, c8 := SetViewport(extent), SetScissor(extent), Cmd.DrawIndexed(scene.indexCount, 1), Cmd.EndRenderPass;
    cb.BeginRenderPass(scene.renderPass, scene.swapchain, scene.framebuffer, imageIndex);
    Appended(m0, h, a + [c0], [c1]);
    cb.BindGraphicPipeline(scene.pipeline);
    Appended(m0, h, a + [c0] + [c1], [c2]);
    cb.BindVertexBuffer(scene.vertexBuffer);
    Appended(m0, h, a + [c0] + [c1] + [c2], [c3]);
    cb.BindIndexBuffer(scene.indexBuffer, INDEX_TYPE_UINT16);
    Appended(m0, h, a + [c0] + [c1] + [c2] + [c3], [c4]);
    cb.BindGraphicDescriptorSet(scene.pipelineLayout, descriptorSet);
    Appended(m0, h, a + [c0] + [c1] + [c2] + [c3] + [c4], [c5, c6, c7]);
    cb.DrawIndexed(scene.swapchain, scene.indexCount);
    Appended(m0, h, a + [c0] + [c1] + [c2] + [c3] + [c4] + [c5, c6, c7], [c8]);
    cb.EndRenderPass();
    NineAppends(a, c0, c1, c2, c3, c4, c5, c6, c7, c8);
  }

  /** How lines 258-269 end, from the driver's results at log position `at` on: the
      reset, the begin and the end of the command buffer, each of which can throw. */
  function RecordOutcome(outcome: nat -> VkResult, at: nat): Outcome
  {
    if outcome(at) != VkSuccess then Fail(RuntimeError(CommandBufferReset))
    else if outcome(at + 1) != VkSuccess then Fail(RuntimeError(RecordingBegin))
    else if outcome(at + 2) != VkSuccess then Fail(RuntimeError(RecordingEnd))
    else Pass
  }

  /** Lines 258-269: reset and begin the slot's command buffer, record the frame, end it. */
  method RecordFrame(scene: Scene, cb: CommandBuffer, descriptorSet: DescriptorSet, imageIndex: nat) returns (o: Outcome)
    requires imageIndex < |scene.framebuffer.framebuffers|
    modifies cb.drv`log, cb.drv`recorded
    ensures o == RecordOutcome(cb.drv.outcome, old(|cb.drv.log|))
    ensures o.Fail? ==> o.error in {RuntimeError(CommandBufferReset), RuntimeError(RecordingBegin), RuntimeError(RecordingEnd)}
    ensures o.Pass? ==> cb.drv.log == old(cb.drv.log) + [
      Called(VkResetCommandBuffer(cb.commandBuffer), VkSuccess),
      Called(VkBeginCommandBuffer(cb.commandBuffer, COMMAND_BUFFER_USAGE_ONE_TIME_SUBMIT), VkSuccess),
      Called(VkEndCommandBuffer(cb.commandBuffer), VkSuccess)]
    ensures o.Pass? ==> cb.drv.recorded == old(cb.drv.recorded)[cb.commandBuffer :=
      FrameCommands(scene, scene.framebuffer.framebuffers[imageIndex], scene.swapchain.extent, descriptorSet.descriptorSet)]
  {
    ghost var d := cb.drv;
    o := cb.Reset();
    if o.Fail? {
      return;
    }
    o := cb.Begin(COMMAND_BUFFER_USAGE_ONE_TIME_SUBMIT);
    if o.Fail? {
      return;
    }
    ghost var frame := FrameCommands(scene, scene.framebuffer.framebuffers[imageIndex], scene.swapchain.extent,
                                     descriptorSet.descriptorSet);
    assert cb.drv.recorded == old(cb.drv.recorded)[cb.commandBuffer := []];
    Appended(old(cb.drv.recorded), cb.commandBuffer, [], frame);
    RecordDraw(scene, cb, descriptorSet, imageIndex);
    assert [] + frame == frame;
    o := cb.End();
  }

  /** The driver calls of one frame that gets through, in order: the fence wait (whatever
      it returns), the fence reset, the image acquisition, the command buffer's reset,
      begin and end, the submission and the presentation. */
  function FrameLog(fence: Handle, waitResult: VkResult, swapchain: Handle, wait: Handle, commandBuffer: Handle,
                    s: Submission, presentQueue: QueueHandle, signal: Handle, imageIndex: nat): (es: seq<Event>)
    ensures |es| == 8
  {
    [Called(VkWaitForFences(fence), waitResult),
     Called(VkResetFences(fence), VkSuccess),
     Called(VkAcquireNextImage(swapchain, wait, Null), VkSuccess),
     Called(VkResetCommandBuffer(commandBuffer), VkSuccess),
     Called(VkBeginCommandBuffer(commandBuffer, COMMAND_BUFFER_USAGE_ONE_TIME_SUBMIT), VkSuccess),
     Called(VkEndCommandBuffer(commandBuffer), VkSuccess),
     Called(VkQueueSubmit(s), VkSuccess),
     Called(VkQueuePresent(presentQueue, [signal], swapchain, imageIndex), VkSuccess)]
  }

  /** How lines 252-253 end, from the driver's results at `at` on: the wait's result is
      dropped, so only the reset that follows can throw. */
  function ThrottleOutcome(outcome: nat -> VkResult, at: nat): Outcome
  {
    if outcome(at + 1) != VkSuccess then Fail(RuntimeError(FenceReset)) else Pass
  }

  /** Lines 252-253: wait for the slot's fence, ignoring the result, then reset it. Under
      the invariant the wait returns what the driver reports, and when it succeeds the reset frees the
      slot; the outstanding submissions only ever lose a prefix. */
  method ThrottleFrame(scene: Scene, slots: Slots, f: nat) returns (o: Outcome, ghost waitResult: VkResult)
    requires Ready(scene, slots) && f < MAX_FRAMES_IN_FLIGHT
    modifies scene.device.drv`log, scene.device.drv`signaled, scene.device.drv`pending, scene.device.drv`failedWaits
    ensures var d := scene.device.drv; var h := slots.inFlight[f].fence;
      o == ThrottleOutcome(d.outcome, old(|d.log|)) && (o.Fail? ==> o.error == RuntimeError(FenceReset)) &&
      waitResult == WaitResult(old(d.pending), old(d.signaled), h, old(d.Upcoming())) &&
      d.log == old(d.log) + [Called(VkWaitForFences(h), waitResult), Called(VkResetFences(h), d.outcome(old(|d.log|) + 1))] &&
      |d.pending| <= |old(d.pending)| && d.pending == old(d.pending)[|old(d.pending)| - |d.pending|..]
    ensures var d := scene.device.drv;
      d.failedWaits == if waitResult == VkSuccess then old(d.failedWaits) else old(d.failedWaits) + 1
    ensures var d := scene.device.drv;
      InFlight(old(d.pending), old(d.signaled), FenceHandles(slots.inFlight)) ==>
        waitResult == old(d.Upcoming()) &&
        (o.Pass? && waitResult == VkSuccess ==> SlotFree(d.pending, d.signaled, FenceHandles(slots.inFlight), f))
  {
    ghost var d, fs := scene.device.drv, FenceHandles(slots.inFlight);
    var fence := slots.inFlight[f];
    ghost var p0, s0, u := d.pending, d.signaled, d.Upcoming();
    waitResult := scene.device.WaitForFences(fence.fence);
    ghost var s1 := d.signaled;
    o := fence.Reset();
    ThrottleFrees(p0, s0, fs, f, u, waitResult, d.pending, s1, d.signaled, o.Pass?);
  }

  /** The ledger across lines 252-253: the wait drops a prefix of the outstanding
      submissions, and under the invariant it returns the driver's result and, followed by
      a successful reset, frees the slot. */
  lemma ThrottleFrees(p0: seq<Submission>, s0: set<nat>, fences: seq<Handle>, f: nat, upcoming: VkResult,
                      result: VkResult, p1: seq<Submission>, s1: set<nat>, s2: set<nat>, reset: bool)
    requires f < |fences|
    requires result == WaitResult(p0, s0, fences[f], upcoming) && Waited(p0, s0, fences[f], result, p1, s1)
    requires s2 == if reset && fences[f].Native? then s1 - {fences[f].id} else s1
    ensures |p1| <= |p0| && p1 == p0[|p0| - |p1|..]
    ensures InFlight(p0, s0, fences) ==>
      result == upcoming && (reset && result == VkSuccess ==> SlotFree(p1, s2, fences, f))
  {
    WaitOutcome(p0, s0, fences, f, upcoming, result, p1, s1);
    if reset && result == VkSuccess && InFlight(p0, s0, fences) {
      ResetFreesSlot(p1, s1, fences, f);
    }
  }

  /** The errors a frame can throw. */
  predicate FrameError(e: Error)
  {
    e in {RuntimeError(FenceReset), RuntimeError(ImageAcquisition), RuntimeError(CommandBufferReset),
          RuntimeError(RecordingBegin), RuntimeError(RecordingEnd), RuntimeError(DrawSubmission),
          RuntimeError(Presentation)}
  }

  /** How lines 255-269 end, for a swapchain of `imageCount` images: the acquisition at
      `at`, which also fails when there is no image, then the recording. */
  function AcquireOutcome(outcome: nat -> VkResult, imageCount: nat, at: nat): Outcome
  {
    if imageCount == 0 || outcome(at) != VkSuccess then Fail(RuntimeError(ImageAcquisition))
    else RecordOutcome(outcome, at + 1)
  }

  /** How lines 255-273 end: acquisition and recording, then the submission at `at + 4`
      and the presentation at `at + 5`. */
  function SubmitOutcome(outcome: nat -> VkResult, imageCount: nat, at: nat): Outcome
  {
    var a := AcquireOutcome(outcome, imageCount, at);
    if a.Fail? then a
    else if outcome(at + 4) != VkSuccess then Fail(RuntimeError(DrawSubmission))
    else if outcome(at + 5) != VkSuccess then Fail(RuntimeError(Presentation))
    else Pass
  }

  /** How one frame ends: the throttle from `at`, then the rest from `at + 2`. */
  function FrameOutcome(outcome: nat -> VkResult, imageCount: nat, at: nat): Outcome
  {
    var t := ThrottleOutcome(outcome, at);
    if t.Fail? then t else SubmitOutcome(outcome, imageCount, at + 2)
  }

  /** A frame gets through exactly when the swapchain has an image and the driver reports
      success for each of the seven calls after the fence wait, whatever the wait returns. */
  lemma {:induction false} FrameOutcomePasses(outcome: nat -> VkResult, imageCount: nat, at: nat)
    ensures FrameOutcome(outcome, imageCount, at).Pass? <==> imageCount > 0 && AllSucceed(outcome, at + 1, 7)
  {
    if FrameOutcome(outcome, imageCount, at).Pass? {
      forall k | at + 1 <= k < at + 8
        ensures outcome(k) == VkSuccess
      {
        assert k == at + 1 || k == at + 2 || k == at + 3 || k == at + 4 || k == at + 5 || k == at + 6 || k == at + 7;
      }
    }
    if imageCount > 0 && AllSucceed(outcome, at + 1, 7) {
      assert outcome(at + 1) == VkSuccess && outcome(at + 2) == VkSuccess && outcome(at + 3) == VkSuccess;
      assert outcome(at + 4) == VkSuccess && outcome(at + 5) == VkSuccess && outcome(at + 6) == VkSuccess;
      assert outcome(at + 7) == VkSuccess;
    }
  }

  /** Lines 247-273: one frame in slot `f`. The slot's fence is waited on and reset, an
      image is acquired signalling the slot's image-available semaphore, the slot's command
      buffer records the frame for that image and is submitted waiting on that semaphore,
      signalling the same one (`SlotSubmission`) and the slot's fence, and the image is
      presented once that semaphore is signaled. The frame adds at most its own submission
      to the log's successful ones (`sent`). If the invariant held before the frame and the
      wait succeeded, no more than `MAX_FRAMES_IN_FLIGHT` submissions are outstanding at
      any point of the frame, and after a submission the invariant holds again. */
  method RenderFrame(scene: Scene, slots: Slots, f: nat)
    returns (o: Outcome, ghost waitResult: VkResult, ghost sent: seq<Submission>, ghost imageIndex: nat)
    requires Ready(scene, slots) && f < MAX_FRAMES_IN_FLIGHT
    modifies scene.device.drv`log, scene.device.drv`signaled, scene.device.drv`pending, scene.device.drv`recorded,
             scene.device.drv`failedWaits, scene.device.drv`highWater, scene.device.drv`accepted
    ensures o == FrameOutcome(scene.device.drv.outcome, |scene.swapchain.images|, old(|scene.device.drv.log|))
    ensures o.Fail? ==> FrameError(o.error)
    ensures var d, cb := scene.device.drv, slots.commandBuffers[f];
      o.Pass? ==> (imageIndex < |scene.swapchain.images| &&
        d.log == old(d.log) + FrameLog(slots.inFlight[f].fence, waitResult, scene.swapchain.swapchain,
                                       slots.imageAvailable[f].semaphore, cb.commandBuffer, SlotSubmission(slots, f),
                                       scene.presentQueue.handle, SignalSemaphoreAsWritten(slots, f).semaphore, imageIndex))
    ensures var d, cb := scene.device.drv, slots.commandBuffers[f];
      o.Pass? ==> d.recorded == old(d.recorded)[cb.commandBuffer :=
        FrameCommands(scene, scene.framebuffer.framebuffers[imageIndex], scene.swapchain.extent,
                      slots.descriptorSets[f].descriptorSet)]
    ensures var d := scene.device.drv;
      o.Pass? ==> (0 < |d.pending| <= |old(d.pending)| + 1 && d.pending[|d.pending| - 1] == SlotSubmission(slots, f) &&
        d.pending[..|d.pending| - 1] == old(d.pending)[|old(d.pending)| + 1 - |d.pending|..])
    ensures var d := scene.device.drv;
      (sent == [] || sent == [SlotSubmission(slots, f)]) && (o.Pass? ==> sent != []) &&
      d.accepted == old(d.accepted) + sent &&
      d.failedWaits == if waitResult == VkSuccess then old(d.failedWaits) else old(d.failedWaits) + 1
    ensures var d := scene.device.drv;
      InFlight(old(d.pending), old(d.signaled), FenceHandles(slots.inFlight)) ==>
        waitResult == old(d.Upcoming()) &&
        (waitResult == VkSuccess ==> d.highWater <= Max(old(d.highWater), MAX_FRAMES_IN_FLIGHT) &&
                                     (sent != [] ==> InFlight(d.pending, d.signaled, FenceHandles(slots.inFlight))))
  {
    ghost var d, fs := scene.device.drv, FenceHandles(slots.inFlight);
    ghost var ok := InFlight(d.pending, d.signaled, fs);
    sent, imageIndex := [], 0;
    o, waitResult := ThrottleFrame(scene, slots, f);
    if o.Fail? {
      return;
    }
    assert fs == FenceHandles(slots.inFlight);
    ghost var p1, s1, l1, hw1 := d.pending, d.signaled, d.log, d.highWater;
    ghost var free := ok && waitResult == VkSuccess;
    assert free ==> SlotFree(p1, s1, fs, f);
    var s;
    o, s, imageIndex, sent := SubmitFrame(scene, slots, f);
    assert fs == FenceHandles(slots.inFlight) && s.fence == fs[f];
    SubmitLedger(old(d.pending), fs, f, p1, s1, s, sent, d.pending, hw1, d.highWater, free);
    if o.Pass? {
      var cb := slots.commandBuffers[f];
      FrameLogJoin(old(d.log), slots.inFlight[f].fence, waitResult, d.outcome(old(|d.log|) + 1), scene.swapchain.swapchain,
                   slots.imageAvailable[f].semaphore, cb.commandBuffer, s, scene.presentQueue.handle,
                   SignalSemaphoreAsWritten(slots, f).semaphore, imageIndex);
    }
  }

  /** The throttle's two calls followed by the six of a frame's submission are the frame's log. */
  lemma FrameLogJoin(l0: seq<Event>, fence: Handle, waitResult: VkResult, reset: VkResult, swapchain: Handle, wait: Handle,
                     commandBuffer: Handle, s: Submission, presentQueue: QueueHandle, signal: Handle, imageIndex: nat)
    requires reset == VkSuccess
    ensures l0 + [Called(VkWaitForFences(fence), waitResult), Called(VkResetFences(fence), reset)] + [
          Called(VkAcquireNextImage(swapchain, wait, Null), VkSuccess),
          Called(VkResetCommandBuffer(commandBuffer), VkSuccess),
          Called(VkBeginCommandBuffer(commandBuffer, COMMAND_BUFFER_USAGE_ONE_TIME_SUBMIT), VkSuccess),
          Called(VkEndCommandBuffer(commandBuffer), VkSuccess),
          Called(VkQueueSubmit(s), VkSuccess),
          Called(VkQueuePresent(presentQueue, [signal], swapchain, imageIndex), VkSuccess)] ==
      l0 + FrameLog(fence, waitResult, swapchain, wait, commandBuffer, s, presentQueue, signal, imageIndex)
  {
  }

  /** The ledger across lines 252-270: after the throttle left a suffix `p1` of the
      outstanding submissions `p0`, the frame's submission `s` on slot `f`'s fence joins
      them if it was accepted; when the throttle freed the slot, the invariant holds again
      and the high-water mark stays within the slot count. */
  lemma SubmitLedger(p0: seq<Submission>, fences: seq<Handle>, f: nat, p1: seq<Submission>, s1: set<nat>,
                     s: Submission, sent: seq<Submission>, p2: seq<Submission>, hw0: nat, hw2: nat, free: bool)
    requires f < |fences| && s.fence == fences[f] && |p1| <= |p0| && p1 == p0[|p0| - |p1|..]
    requires free ==> SlotFree(p1, s1, fences, f)
    requires (sent == [] && p2 == p1 && hw2 == hw0) || (sent == [s] && p2 == p1 + [s] && hw2 == Max(hw0, |p2|))
    ensures sent != [] ==> 0 < |p2| <= |p0| + 1 && p2[|p2| - 1] == s && p2[..|p2| - 1] == p0[|p0| + 1 - |p2|..]
    ensures free ==> hw2 <= Max(hw0, |fences|) && (sent != [] ==> InFlight(p2, s1, fences))
  {
    if sent != [] {
      assert p2[..|p2| - 1] == p1;
      if free {
        SubmitKeepsInFlight(p1, s1, fences, f, s);
        InFlightBound(p2, s1, fences);
      }
    }
  }

  /** Lines 255-273: the part of a frame after the throttle. The submission made is always
      `SlotSubmission(slots, f)`; it is recorded in `sent` exactly when it succeeded, and
      then it is the one new outstanding submission and raises the high-water mark. */
  method SubmitFrame(scene: Scene, slots: Slots, f: nat)
    returns (o: Outcome, s: Submission, imageIndex: nat, ghost sent: seq<Submission>)
    requires Ready(scene, slots) && f < MAX_FRAMES_IN_FLIGHT
    modifies scene.device.drv`log, scene.device.drv`signaled, scene.device.drv`pending, scene.device.drv`recorded,
             scene.device.drv`highWater, scene.device.drv`accepted
    ensures o == SubmitOutcome(scene.device.drv.outcome, |scene.swapchain.images|, old(|scene.device.drv.log|))
    ensures o.Fail? ==> FrameError(o.error)
    ensures s == SlotSubmission(slots, f)
    ensures var d, cb := scene.device.drv, slots.commandBuffers[f];
      o.Pass? ==> (imageIndex < |scene.swapchain.images| &&
        d.log == old(d.log) + [
          Called(VkAcquireNextImage(scene.swapchain.swapchain, slots.imageAvailable[f].semaphore, Null), VkSuccess),
          Called(VkResetCommandBuffer(cb.commandBuffer), VkSuccess),
          Called(VkBeginCommandBuffer(cb.commandBuffer, COMMAND_BUFFER_USAGE_ONE_TIME_SUBMIT), VkSuccess),
          Called(VkEndCommandBuffer(cb.commandBuffer), VkSuccess),
          Called(VkQueueSubmit(s), VkSuccess),
          Called(VkQueuePresent(scene.presentQueue.handle, [SignalSemaphoreAsWritten(slots, f).semaphore],
                                scene.swapchain.swapchain, imageIndex), VkSuccess)])
    ensures var d, cb := scene.device.drv, slots.commandBuffers[f];
      o.Pass? ==> d.recorded == old(d.recorded)[cb.commandBuffer :=
        FrameCommands(scene, scene.framebuffer.framebuffers[imageIndex], scene.swapchain.extent,
                      slots.descriptorSets[f].descriptorSet)]
    ensures var d := scene.device.drv;
      d.signaled == old(d.signaled) && d.accepted == old(d.accepted) + sent && (o.Pass? ==> sent == [s]) &&
      ((sent == [] && d.pending == old(d.pending) && d.highWater == old(d.highWater)) ||
       (sent == [s] && d.pending == old(d.pending) + [s] && d.highWater == Max(old(d.highWater), |d.pending|)))
  {
    ghost var d := scene.device.drv;
    var cb, wait, signal := slots.commandBuffers[f], slots.imageAvailable[f], SignalSemaphoreAsWritten(slots, f);
    s := SlotSubmission(slots, f);
    sent := [];
    o, imageIndex := AcquireAndRecord(scene, slots, f);
    if o.Fail? {
      return;
    }
    var made;
    o, made := cb.QueueSubmit([wait], [signal], Some(slots.inFlight[f]));
    assert made == s;
    if o.Fail? {
      return;
    }
    sent := [s];
    o := scene.swapchain.PresentSwapchain(scene.presentQueue, Some(signal), imageIndex);
  }

  /** Lines 255-269: acquire an image signalling the slot's image-available semaphore, and
      record the frame for it in the slot's command buffer. */
  method AcquireAndRecord(scene: Scene, slots: Slots, f: nat) returns (o: Outcome, imageIndex: nat)
    requires Ready(scene, slots) && f < MAX_FRAMES_IN_FLIGHT
    modifies scene.device.drv`log, scene.device.drv`signaled, scene.device.drv`recorded
    ensures o == AcquireOutcome(scene.device.drv.outcome, |scene.swapchain.images|, old(|scene.device.drv.log|))
    ensures o.Fail? ==> o.error in {RuntimeError(ImageAcquisition), RuntimeError(CommandBufferReset),
                                    RuntimeError(RecordingBegin), RuntimeError(RecordingEnd)}
    ensures scene.device.drv.signaled == old(scene.device.drv.signaled)
    ensures var d, cb := scene.device.drv, slots.commandBuffers[f];
      o.Pass? ==> (imageIndex < |scene.swapchain.images| &&
        d.log == old(d.log) + [
          Called(VkAcquireNextImage(scene.swapchain.swapchain, slots.imageAvailable[f].semaphore, Null), VkSuccess),
          Called(VkResetCommandBuffer(cb.commandBuffer), VkSuccess),
          Called(VkBeginCommandBuffer(cb.commandBuffer, COMMAND_BUFFER_USAGE_ONE_TIME_SUBMIT), VkSuccess),
          Called(VkEndCommandBuffer(cb.commandBuffer), VkSuccess)])
    ensures var d, cb := scene.device.drv, slots.commandBuffers[f];
      o.Pass? ==> d.recorded == old(d.recorded)[cb.commandBuffer :=
        FrameCommands(scene, scene.framebuffer.framebuffers[imageIndex], scene.swapchain.extent,
                      slots.descriptorSets[f].descriptorSet)]
  {
    ghost var d := scene.device.drv;
    imageIndex := 0;
    var acquired := scene.swapchain.AcquireNextImage(Some(slots.imageAvailable[f]), None);
    if acquired.Err? {
      return Fail(acquired.error), imageIndex;
    }
    imageIndex := acquired.value;
    o := RecordFrame(scene, slots.commandBuffers[f], slots.descriptorSets[f], imageIndex);
  }

  /** Every submission so far came from the slot its frame number selects. */
  ghost predicate Rendered(slots: Slots, submitted: seq<Submission>)
    reads slots.commandBuffers, slots.imageAvailable, slots.inFlight
  {
    |slots.commandBuffers| >= MAX_FRAMES_IN_FLIGHT && |slots.imageAvailable| >= MAX_FRAMES_IN_FLIGHT &&
    |slots.inFlight| >= MAX_FRAMES_IN_FLIGHT &&
    forall k :: 0 <= k < |submitted| ==> submitted[k] == SlotSubmission(slots, k % MAX_FRAMES_IN_FLIGHT)
  }

  /** The next frame's submission from the slot its number selects extends `Rendered`. */
  lemma {:induction false} RenderedAppend(slots: Slots, submitted: seq<Submission>, s: Submission)
    requires Rendered(slots, submitted) && s == SlotSubmission(slots, |submitted| % MAX_FRAMES_IN_FLIGHT)
    ensures Rendered(slots, submitted + [s])
  {
    var next := submitted + [s];
    forall k | 0 <= k < |next|
      ensures next[k] == SlotSubmission(slots, k % MAX_FRAMES_IN_FLIGHT)
    {
      if k < |submitted| {
        assert next[k] == submitted[k];
      }
    }
  }

  /** As written, a render-finished semaphore that is none of the image-available ones is
      neither waited on nor signaled by any submission of the loop. */
  lemma {:induction false} RenderFinishedUnused(slots: Slots, submitted: seq<Submission>, j: nat)
    requires Rendered(slots, submitted) && j < |slots.renderFinished|
    requires forall f :: 0 <= f < MAX_FRAMES_IN_FLIGHT ==> slots.renderFinished[j].semaphore != slots.imageAvailable[f].semaphore
    ensures forall k :: 0 <= k < |submitted| ==>
      slots.renderFinished[j].semaphore !in submitted[k].waits && slots.renderFinished[j].semaphore !in submitted[k].signals
  {
    forall k | 0 <= k < |submitted|
      ensures slots.renderFinished[j].semaphore !in submitted[k].waits
      ensures slots.renderFinished[j].semaphore !in submitted[k].signals
    {
      var f := k % MAX_FRAMES_IN_FLIGHT;
      assert submitted[k] == SlotSubmission(slots, f);
      assert submitted[k].waits == submitted[k].signals == [slots.imageAvailable[f].semaphore];
    }
  }

  /** What the render loop keeps whether or not a frame throws, counted from the accepted
      submissions `accepted0`, failed-wait count `failedWaits0` and high-water mark
      `highWater0` it started with: the driver accepted `submitted` since then, each from the slot its
      frame number selects; and if the fence invariant held at the start (`start`) and no
      wait has failed since, no more than `MAX_FRAMES_IN_FLIGHT` submissions beyond the
      starting mark were ever outstanding. */
  ghost predicate Kept(scene: Scene, slots: Slots, submitted: seq<Submission>, accepted0: seq<Submission>,
                       failedWaits0: nat, highWater0: nat, start: bool)
    reads scene.device.drv`accepted, scene.device.drv`failedWaits, scene.device.drv`highWater
    reads slots.commandBuffers, slots.imageAvailable, slots.inFlight
  {
    var d := scene.device.drv;
    Rendered(slots, submitted) && d.accepted == accepted0 + submitted &&
    d.failedWaits >= failedWaits0 &&
    (start && d.failedWaits == failedWaits0 ==> d.highWater <= Max(highWater0, MAX_FRAMES_IN_FLIGHT))
  }

  /** The state of the render loop after `n` frames: the slot is `n % MAX_FRAMES_IN_FLIGHT`,
      one submission per frame, and if it held at the start while no wait has failed since,
      the fence invariant holds. */
  ghost predicate LoopState(scene: Scene, slots: Slots, n: nat, currentFrame: nat, submitted: seq<Submission>,
                            accepted0: seq<Submission>, failedWaits0: nat, highWater0: nat, start: bool)
    reads scene.device.drv`accepted, scene.device.drv`failedWaits, scene.device.drv`highWater
    reads scene.device.drv`pending, scene.device.drv`signaled, slots.commandBuffers, slots.imageAvailable, slots.inFlight
  {
    var d := scene.device.drv;
    Kept(scene, slots, submitted, accepted0, failedWaits0, highWater0, start) &&
    currentFrame == n % MAX_FRAMES_IN_FLIGHT && |submitted| == n &&
    (start && d.failedWaits == failedWaits0 ==> InFlight(d.pending, d.signaled, FenceHandles(slots.inFlight)))
  }

  /** One round of the render loop: the frame in the current slot, then the next slot. */
  method RenderStep(scene: Scene, slots: Slots, n: nat, currentFrame: nat, ghost submitted: seq<Submission>,
                    ghost accepted0: seq<Submission>, ghost failedWaits0: nat, ghost highWater0: nat, ghost start: bool,
                    ghost rest: nat)
    returns (o: Outcome, nextFrame: nat, ghost submitted': seq<Submission>)
    requires Ready(scene, slots) && LoopState(scene, slots, n, currentFrame, submitted, accepted0, failedWaits0, highWater0, start)
    requires rest > 0
    modifies scene.device.drv`log, scene.device.drv`signaled, scene.device.drv`pending, scene.device.drv`recorded,
             scene.device.drv`failedWaits, scene.device.drv`highWater, scene.device.drv`accepted
    ensures var d, c := scene.device.drv, |scene.swapchain.images|;
      if o.Fail? then o == LoopOutcome(d.outcome, c, old(|d.log|), rest)
      else LoopOutcome(d.outcome, c, old(|d.log|), rest) == LoopOutcome(d.outcome, c, |d.log|, rest - 1)
    ensures o.Fail? ==> FrameError(o.error)
    ensures Kept(scene, slots, submitted', accepted0, failedWaits0, highWater0, start)
    ensures o.Pass? ==> LoopState(scene, slots, n + 1, nextFrame, submitted', accepted0, failedWaits0, highWater0, start)
  {
    ghost var d := scene.device.drv;
    ghost var accepted1, failedWaits1, highWater1 := d.accepted, d.failedWaits, d.highWater;
    ghost var inFlight1 := InFlight(d.pending, d.signaled, FenceHandles(slots.inFlight));
    ghost var waitResult, sent, imageIndex;
    o, waitResult, sent, imageIndex := RenderFrame(scene, slots, currentFrame);
    LoopAdvance(d.outcome, |scene.swapchain.images|, old(|d.log|), rest, o, |d.log|);
    nextFrame := (currentFrame + 1) % MAX_FRAMES_IN_FLIGHT;
    NextSlot(n, currentFrame);
    submitted' := submitted + sent;
    StepKeeps(scene, slots, n, submitted, sent, accepted1, failedWaits1, highWater1, inFlight1,
              accepted0, failedWaits0, highWater0, start, waitResult == VkSuccess, o.Pass?);
  }

  /** The bookkeeping of one round, from the accepted submissions, failed-wait count,
      high-water mark and fence invariant `inFlight1` before the frame to the driver's state
      after it: the loop's record stays kept, and after a frame that got through the state
      is that of the next round. */
  lemma StepKeeps(scene: Scene, slots: Slots, n: nat, submitted: seq<Submission>, sent: seq<Submission>,
                  accepted1: seq<Submission>, failedWaits1: nat, highWater1: nat, inFlight1: bool,
                  accepted0: seq<Submission>, failedWaits0: nat, highWater0: nat, start: bool, waitOk: bool, pass: bool)
    requires Rendered(slots, submitted) && |submitted| == n && accepted1 == accepted0 + submitted
    requires failedWaits1 >= failedWaits0 && (start && failedWaits1 == failedWaits0 ==> highWater1 <= Max(highWater0, MAX_FRAMES_IN_FLIGHT) && inFlight1)
    requires var d := scene.device.drv;
      (sent == [] || sent == [SlotSubmission(slots, n % MAX_FRAMES_IN_FLIGHT)]) && (pass ==> sent != []) &&
      d.accepted == accepted1 + sent && d.failedWaits == (if waitOk then failedWaits1 else failedWaits1 + 1) &&
      (inFlight1 && waitOk ==> (d.highWater <= Max(highWater1, MAX_FRAMES_IN_FLIGHT) &&
        (sent != [] ==> InFlight(d.pending, d.signaled, FenceHandles(slots.inFlight)))))
    ensures Kept(scene, slots, submitted + sent, accepted0, failedWaits0, highWater0, start)
    ensures var d := scene.device.drv;
      pass ==> (|submitted + sent| == n + 1 &&
        (start && d.failedWaits == failedWaits0 ==> InFlight(d.pending, d.signaled, FenceHandles(slots.inFlight))))
  {
    if sent != [] {
      RenderedAppend(slots, submitted, sent[0]);
      assert submitted + sent == submitted + [sent[0]];
    }
    assert accepted1 + sent == accepted0 + (submitted + sent);
  }

  /** Advancing the slot as line 275 does keeps it at the frame number modulo the slot count. */
  lemma NextSlot(n: nat, currentFrame: nat)
    requires currentFrame == n % MAX_FRAMES_IN_FLIGHT
    ensures (currentFrame + 1) % MAX_FRAMES_IN_FLIGHT == (n + 1) % MAX_FRAMES_IN_FLIGHT
  {
  }

  /** One more frame of a loop with `rest` frames left, ending as `o`. */
  lemma LoopAdvance(outcome: nat -> VkResult, imageCount: nat, at: nat, rest: nat, o: Outcome, at': nat)
    requires rest > 0 && o == FrameOutcome(outcome, imageCount, at) && (o.Pass? ==> at' == at + 8)
    ensures if o.Fail? then o == LoopOutcome(outcome, imageCount, at, rest)
            else LoopOutcome(outcome, imageCount, at, rest) == LoopOutcome(outcome, imageCount, at', rest - 1)
  {
    LoopOutcomeStep(outcome, imageCount, at, rest);
  }

  /** How the render loop ends after `frames` frames: the first frame that throws, else the
      final `vkDeviceWaitIdle`. A frame that gets through spends eight results. */
  function LoopOutcome(outcome: nat -> VkResult, imageCount: nat, at: nat, frames: nat): Outcome
    decreases frames
  {
    if frames == 0 then (if outcome(at) == VkSuccess then Pass else Fail(RuntimeError(DeviceWaitIdle)))
    else
      var o := FrameOutcome(outcome, imageCount, at);
      if o.Fail? then o else LoopOutcome(outcome, imageCount, at + 8, frames - 1)
  }

  /** A loop with frames left ends as its first frame does if that frame throws, and else
      as the rest of the loop does, eight results later. */
  lemma LoopOutcomeStep(outcome: nat -> VkResult, imageCount: nat, at: nat, frames: nat)
    requires frames > 0
    ensures var o := FrameOutcome(outcome, imageCount, at);
      LoopOutcome(outcome, imageCount, at, frames) == if o.Fail? then o else LoopOutcome(outcome, imageCount, at + 8, frames - 1)
  {
  }

  /** Lines 243-278: `frames` frames (the window closing is outside the model), the slot
      advancing as `currentFrame = (currentFrame + 1) % MAX_FRAMES_IN_FLIGHT`, then a wait
      for the device to go idle. The loop ends as `LoopOutcome` says; the successful
      submissions it adds to the log are `submitted`, frame `n`'s from slot
      `n % MAX_FRAMES_IN_FLIGHT`; if the loop started under the fence invariant (it does
      not after a failed upload queue wait, which leaves a fenceless submission outstanding)
      and no fence wait failed, the driver never had more
      than `MAX_FRAMES_IN_FLIGHT` submissions outstanding beyond its starting mark; and once
      the device is idle none are. */
  method RenderLoop(scene: Scene, slots: Slots, frames: nat) returns (o: Outcome, ghost submitted: seq<Submission>)
    requires Ready(scene, slots)
    modifies scene.device.drv`log, scene.device.drv`signaled, scene.device.drv`pending, scene.device.drv`recorded,
             scene.device.drv`failedWaits, scene.device.drv`highWater, scene.device.drv`accepted
    ensures o == LoopOutcome(scene.device.drv.outcome, |scene.swapchain.images|, old(|scene.device.drv.log|), frames)
    ensures o.Fail? ==> FrameError(o.error) || o.error == RuntimeError(DeviceWaitIdle)
    ensures Rendered(slots, submitted) && scene.device.drv.accepted == old(scene.device.drv.accepted) + submitted
    ensures o.Pass? ==> |submitted| == frames
    ensures InFlight(old(scene.device.drv.pending), old(scene.device.drv.signaled), FenceHandles(slots.inFlight)) &&
            scene.device.drv.failedWaits == old(scene.device.drv.failedWaits) ==>
      scene.device.drv.highWater <= Max(old(scene.device.drv.highWater), MAX_FRAMES_IN_FLIGHT)
    ensures o.Pass? ==> scene.device.drv.pending == []
  {
    o, submitted := RenderFrames(scene, slots, frames);
    if o.Fail? {
      return;
    }
    o := scene.device.WaitIdle();
  }

  /** Lines 243-273: the frames of the render loop, before the final wait. A frame that
      throws ends them as `LoopOutcome` says; otherwise all `frames` frames were submitted
      and, if it held at the start, the fence invariant still holds unless a wait failed. */
  method RenderFrames(scene: Scene, slots: Slots, frames: nat) returns (o: Outcome, ghost submitted: seq<Submission>)
    requires Ready(scene, slots)
    modifies scene.device.drv`log, scene.device.drv`signaled, scene.device.drv`pending, scene.device.drv`recorded,
             scene.device.drv`failedWaits, scene.device.drv`highWater, scene.device.drv`accepted
    ensures var d := scene.device.drv;
      Kept(scene, slots, submitted, old(d.accepted), old(d.failedWaits), old(d.highWater),
           InFlight(old(d.pending), old(d.signaled), FenceHandles(slots.inFlight))) &&
      (o.Fail? ==> FrameError(o.error) && o == LoopOutcome(d.outcome, |scene.swapchain.images|, old(|d.log|), frames))
    ensures var d := scene.device.drv;
      o.Pass? ==> (|submitted| == frames &&
        LoopOutcome(d.outcome, |scene.swapchain.images|, old(|d.log|), frames) ==
        LoopOutcome(d.outcome, |scene.swapchain.images|, |d.log|, 0))
  {
    ghost var d := scene.device.drv;
    ghost var log0, accepted0, failedWaits0, highWater0 := d.log, d.accepted, d.failedWaits, d.highWater;
    ghost var start := InFlight(d.pending, d.signaled, FenceHandles(slots.inFlight));
    var currentFrame: nat := 0;
    var n := 0;
    submitted, o := [], Pass;
    ghost var c, at := |scene.swapchain.images|, |d.log|;
    while n < frames
      invariant n <= frames && LoopState(scene, slots, n, currentFrame, submitted, accepted0, failedWaits0, highWater0, start)
      invariant c == |scene.swapchain.images| && at == |d.log|
      invariant LoopOutcome(d.outcome, c, |log0|, frames) == LoopOutcome(d.outcome, c, at, frames - n)
      invariant o == Pass
    {
      o, currentFrame, submitted := RenderStep(scene, slots, n, currentFrame, submitted, accepted0, failedWaits0, highWater0, start,
                                                 frames - n);
      if o.Fail? {
        return;
      }
      n, at := n + 1, |d.log|;
    }
  }

  // ---------------------------------------------------------------------------
  // The texture upload

  /** What the upload records: the whole texture moved out of the undefined layout for the
      copy, the staging buffer copied into level 0, then the mip chain. */
  function UploadCommands(image: Handle, staging: Handle, width: uint32, height: uint32, mipLevels: uint32): seq<Cmd>
  {
    [PipelineBarrier(STAGE_TOP_OF_PIPE, STAGE_TRANSFER,
       ImageBarrier(image, LayoutUndefined, LayoutTransferDstOptimal, ACCESS_NONE, ACCESS_TRANSFER_WRITE, 0, mipLevels)),
     CopyBufferToImage(staging, image, LayoutTransferDstOptimal, width, height)] +
    MipCommands(image, ToInt32(width), ToInt32(height), mipLevels)
  }

  /** The upload brings every mip level from the undefined layout to the shader-read layout:
      the first barrier covers all levels from 0, the copy writes level 0 in the layout that
      barrier leaves, and the recording ends with the mip chain, whose last barrier hands
      the last level to the fragment shader. */
  lemma UploadCommandsShape(image: Handle, staging: Handle, width: uint32, height: uint32, mipLevels: uint32)
    requires mipLevels >= 1
    ensures var cmds := UploadCommands(image, staging, width, height, mipLevels);
      |cmds| == 3 * (mipLevels as int - 1) + 3 &&
      cmds[0].PipelineBarrier? && cmds[0].barrier.baseMipLevel == 0 && cmds[0].barrier.levelCount == mipLevels &&
      cmds[0].barrier.newLayout == LayoutTransferDstOptimal &&
      cmds[1] == CopyBufferToImage(staging, image, cmds[0].barrier.newLayout, width, height) &&
      cmds[|cmds| - 1] == FinalBarrier(image, mipLevels) &&
      cmds[|cmds| - 1].barrier.newLayout == LayoutShaderReadOnlyOptimal
  {
    MipCommandsShape(image, ToInt32(width), ToInt32(height), mipLevels);
  }

  /** How the recording of the upload ends, from the driver's results at `at` on: the
      begin, then the end; the layout transition out of the undefined layout cannot throw. */
  function RecordUploadOutcome(outcome: nat -> VkResult, at: nat): Outcome
  {
    if outcome(at) != VkSuccess then Fail(RuntimeError(RecordingBegin))
    else if outcome(at + 1) != VkSuccess then Fail(RuntimeError(RecordingEnd))
    else Pass
  }

  /** How lines 207-213 end: the recording, then the submission at `at + 2`; the queue
      wait that follows never throws. */
  function SubmitUploadOutcome(outcome: nat -> VkResult, at: nat): Outcome
  {
    var r := RecordUploadOutcome(outcome, at);
    if r.Fail? then r else if outcome(at + 2) != VkSuccess then Fail(RuntimeError(DrawSubmission)) else Pass
  }

  /** How lines 205-213 end: the command buffer allocation at `at`, then the rest. */
  function UploadOutcome(outcome: nat -> VkResult, at: nat): Outcome
  {
    if outcome(at) != VkSuccess then Fail(RuntimeError(CommandBufferAllocation)) else SubmitUploadOutcome(outcome, at + 1)
  }

  /** Lines 207-211: begin the upload buffer for one submission, move the texture to the
      copy layout, copy the staging buffer into it, build the mip chain, end. The texture
      is created in the undefined layout (line 199). */
  method RecordUpload(cb: CommandBuffer, staging: Buffer, texture: Texture) returns (o: Outcome)
    requires texture.imageLayout == LayoutUndefined
    modifies cb.drv`log, cb.drv`recorded, texture`imageLayout
    ensures o == RecordUploadOutcome(cb.drv.outcome, old(|cb.drv.log|))
    ensures o.Fail? ==> o.error in {RuntimeError(RecordingBegin), RuntimeError(RecordingEnd)}
    ensures o.Pass? ==> cb.drv.log == old(cb.drv.log) + [
      Called(VkBeginCommandBuffer(cb.commandBuffer, COMMAND_BUFFER_USAGE_ONE_TIME_SUBMIT), VkSuccess),
      Called(VkEndCommandBuffer(cb.commandBuffer), VkSuccess)]
    ensures o.Pass? ==> texture.imageLayout == LayoutShaderReadOnlyOptimal
    ensures o.Pass? ==> cb.drv.recorded == old(cb.drv.recorded)[cb.commandBuffer :=
      UploadCommands(texture.image, staging.buffer, texture.width, texture.height, texture.mipLevels)]
  {
    var d, h := cb.drv, cb.commandBuffer;
    o := cb.Begin(COMMAND_BUFFER_USAGE_ONE_TIME_SUBMIT);
    if o.Fail? {
      return;
    }
    assert d.Recorded(h) == [];
    RecordUploadCommands(cb, staging, texture);
    assert d.recorded == old(d.recorded)[h := UploadCommands(texture.image, staging.buffer, texture.width, texture.height, texture.mipLevels)];
    o := cb.End();
  }

  /** Lines 208-210 on a command buffer that has just begun: the commands of the upload,
      after which the texture is ready for sampling. */
  method RecordUploadCommands(cb: CommandBuffer, staging: Buffer, texture: Texture)
    requires texture.imageLayout == LayoutUndefined && cb.drv.Recorded(cb.commandBuffer) == []
    modifies cb.drv`recorded, texture`imageLayout
    ensures texture.imageLayout == LayoutShaderReadOnlyOptimal
    ensures cb.drv.recorded == old(cb.drv.recorded)[cb.commandBuffer :=
      UploadCommands(texture.image, staging.buffer, texture.width, texture.height, texture.mipLevels)]
  {
    var d, h := cb.drv, cb.commandBuffer;
    ghost var m0 := d.recorded;
    UploadTransitions();
    var first := PipelineBarrier(STAGE_TOP_OF_PIPE, STAGE_TRANSFER,
      ImageBarrier(texture.image, LayoutUndefined, LayoutTransferDstOptimal, ACCESS_NONE, ACCESS_TRANSFER_WRITE, 0, texture.mipLevels));
    var copy := CopyBufferToImage(staging.buffer, texture.image, LayoutTransferDstOptimal, texture.width, texture.height);
    ghost var mips := MipCommands(texture.image, ToInt32(texture.width), ToInt32(texture.height), texture.mipLevels);
    var _ := cb.TransitionImageLayout(texture, FORMAT_R8G8B8A8_SRGB, LayoutTransferDstOptimal);
    assert [] + [first] == [first];
    assert d.recorded == m0[h := [first]];
    Appended(m0, h, [first], [copy]);
    cb.CopyBufferToTexture(staging, texture);
    assert [first] + [copy] == [first, copy];
    Appended(m0, h, [first, copy], mips);
    cb.GenerateMipMap(texture);
    assert [first, copy] + mips == UploadCommands(texture.image, staging.buffer, texture.width, texture.height, texture.mipLevels);
  }

  /** Lines 205-213: a new command buffer from the pool records the upload and is submitted
      with no semaphores and no fence; then the graphics queue is waited on. `Queue::waitIdle`
      is declared without a definition; here it is `vkQueueWaitIdle` on the queue, whose
      result is returned rather than thrown. Once that wait succeeds nothing is outstanding,
      so the render loop starts on an idle queue. */
  method UploadTexture(commandPool: CommandPool, staging: Buffer, texture: Texture, graphicQueue: Queue)
    returns (o: Outcome, ghost s: Submission, ghost idle: VkResult)
    requires commandPool.Valid() && texture.imageLayout == LayoutUndefined
    modifies commandPool`commandBuffers, commandPool.drv`log, commandPool.drv`next, commandPool.drv`live,
             commandPool.drv`owner, commandPool.drv`recorded, commandPool.drv`pending, commandPool.drv`signaled,
             commandPool.drv`highWater, commandPool.drv`accepted, texture`imageLayout
    ensures commandPool.Valid()
    ensures o == UploadOutcome(commandPool.drv.outcome, old(|commandPool.drv.log|))
    ensures o.Pass? ==> idle == commandPool.drv.outcome(old(|commandPool.drv.log|) + 4)
    ensures commandPool.drv.highWater ==
      if o.Pass? then Max(old(commandPool.drv.highWater), |old(commandPool.drv.pending)| + 1) else old(commandPool.drv.highWater)
    ensures o.Fail? ==> o.error in {RuntimeError(CommandBufferAllocation), RuntimeError(RecordingBegin),
                                    RuntimeError(RecordingEnd), RuntimeError(DrawSubmission)}
    ensures o.Pass? ==> texture.imageLayout == LayoutShaderReadOnlyOptimal
    ensures o.Pass? ==> (|commandPool.commandBuffers| == |old(commandPool.commandBuffers)| + 1 &&
      commandPool.commandBuffers[..|commandPool.commandBuffers| - 1] == old(commandPool.commandBuffers))
    ensures o.Pass? ==> (
      var d, cb := commandPool.drv, commandPool.commandBuffers[|commandPool.commandBuffers| - 1];
      s == Submission(commandPool.queue.handle, cb.commandBuffer, [], STAGE_COLOR_ATTACHMENT_OUTPUT, [], Null) &&
      d.Recorded(cb.commandBuffer) == UploadCommands(texture.image, staging.buffer, texture.width, texture.height, texture.mipLevels) &&
      |d.log| >= 2 && d.log[|d.log| - 2..] == [Called(VkQueueSubmit(s), VkSuccess), Called(VkQueueWaitIdle(graphicQueue.handle), idle)])
    ensures o.Pass? && idle == VkSuccess ==> commandPool.drv.pending == []
  {
    var d := commandPool.drv;
    s, idle := Submission(commandPool.queue.handle, Null, [], STAGE_COLOR_ATTACHMENT_OUTPUT, [], Null), VkSuccess;
    var made := commandPool.AllocateCommandBuffer();
    if made.Err? {
      return Fail(made.error), s, idle;
    }
    var cb := made.value;
    o, s, idle := SubmitUpload(cb, staging, texture, graphicQueue);
  }

  /** Lines 207-213 on the new command buffer `cb`. */
  method SubmitUpload(cb: CommandBuffer, staging: Buffer, texture: Texture, graphicQueue: Queue)
    returns (o: Outcome, s: Submission, ghost idle: VkResult)
    requires texture.imageLayout == LayoutUndefined
    modifies cb.drv`log, cb.drv`recorded, cb.drv`pending, cb.drv`signaled, cb.drv`highWater, cb.drv`accepted, texture`imageLayout
    ensures o == SubmitUploadOutcome(cb.drv.outcome, old(|cb.drv.log|))
    ensures o.Pass? ==> idle == cb.drv.outcome(old(|cb.drv.log|) + 3)
    ensures cb.drv.highWater == if o.Pass? then Max(old(cb.drv.highWater), |old(cb.drv.pending)| + 1) else old(cb.drv.highWater)
    ensures o.Fail? ==> o.error in {RuntimeError(RecordingBegin), RuntimeError(RecordingEnd), RuntimeError(DrawSubmission)}
    ensures o.Pass? ==> texture.imageLayout == LayoutShaderReadOnlyOptimal
    ensures o.Pass? ==> s == Submission(cb.queue.handle, cb.commandBuffer, [], STAGE_COLOR_ATTACHMENT_OUTPUT, [], Null)
    ensures o.Pass? ==>
      cb.drv.Recorded(cb.commandBuffer) == UploadCommands(texture.image, staging.buffer, texture.width, texture.height, texture.mipLevels)
    ensures o.Pass? ==> (|cb.drv.log| >= 2 &&
      cb.drv.log[|cb.drv.log| - 2..] == [Called(VkQueueSubmit(s), VkSuccess), Called(VkQueueWaitIdle(graphicQueue.handle), idle)])
    ensures o.Pass? && idle == VkSuccess ==> cb.drv.pending == []
  {
    s, idle := Submission(cb.queue.handle, cb.commandBuffer, [], STAGE_COLOR_ATTACHMENT_OUTPUT, [], Null), VkSuccess;
    o := RecordUpload(cb, staging, texture);
    if o.Fail? {
      return;
    }
    ghost var pending0 := cb.drv.pending;
    o, s := cb.QueueSubmit([], [], None);
    if o.Fail? {
      return;
    }
    idle := cb.drv.WaitIdle(VkQueueWaitIdle(graphicQueue.handle));
  }

  // ---------------------------------------------------------------------------
  // Per-slot setup

  /** How lines 164-165 end, from the driver's results at `at` on, for a buffer of the
      memory requirements `req`: the buffer's constructor spends three results, then the
      map can throw; the unmap after it is not looked at. */
  function UniformOutcome(outcome: nat -> VkResult, memoryTypes: seq<bv32>, req: MemoryRequirements, at: nat): Outcome
    requires |memoryTypes| <= 32
  {
    var b := BufferOutcome(outcome, memoryTypes, req, at);
    if b.Fail? then b else if outcome(at + 3) != VkSuccess then Fail(RuntimeError(MemoryMapping)) else Pass
  }

  /** How lines 168-169 end: the descriptor set allocation at `at`, then the command
      buffer allocation. */
  function EntriesOutcome(outcome: nat -> VkResult, at: nat): Outcome
  {
    if outcome(at) != VkSuccess then Fail(RuntimeError(DescriptorSetAllocation))
    else if outcome(at + 1) != VkSuccess then Fail(RuntimeError(CommandBufferAllocation))
    else Pass
  }

  /** How lines 170-174 end: two semaphores from `at`, then the fence. */
  function SyncOutcome(outcome: nat -> VkResult, at: nat): Outcome
  {
    if outcome(at) != VkSuccess || outcome(at + 1) != VkSuccess then Fail(RuntimeError(SemaphoreCreation))
    else if outcome(at + 2) != VkSuccess then Fail(RuntimeError(FenceCreation))
    else Pass
  }

  /** How one round of the setup loop ends: the uniform buffer from `at` (five results when
      it gets through), the pool entries from `at + 5`, the synchronisation objects from
      `at + 7`. */
  function SlotOutcome(outcome: nat -> VkResult, memoryTypes: seq<bv32>, req: MemoryRequirements, at: nat): Outcome
    requires |memoryTypes| <= 32
  {
    var u := UniformOutcome(outcome, memoryTypes, req, at);
    if u.Fail? then u
    else
      var e := EntriesOutcome(outcome, at + 5);
      if e.Fail? then e else SyncOutcome(outcome, at + 7)
  }

  /** A round gets through exactly when some memory type suits the uniform buffer and the
      driver reports success for all of its ten calls but the unmap, the fifth. */
  lemma {:induction false} SlotOutcomePasses(outcome: nat -> VkResult, memoryTypes: seq<bv32>, req: MemoryRequirements, at: nat)
    requires |memoryTypes| <= 32
    ensures SlotOutcome(outcome, memoryTypes, req, at).Pass? <==>
      !NoneSuitable(memoryTypes, req.memoryTypeBits, BUFFER_MEMORY_PROPERTIES) &&
      AllSucceed(outcome, at, 4) && AllSucceed(outcome, at + 5, 5)
  {
    if SlotOutcome(outcome, memoryTypes, req, at).Pass? {
      forall k | at <= k < at + 4
        ensures outcome(k) == VkSuccess
      {
        assert k == at || k == at + 1 || k == at + 2 || k == at + 3;
      }
      forall k | at + 5 <= k < at + 10
        ensures outcome(k) == VkSuccess
      {
        assert k == at + 5 || k == at + 6 || k == at + 7 || k == at + 8 || k == at + 9;
      }
    }
    if !NoneSuitable(memoryTypes, req.memoryTypeBits, BUFFER_MEMORY_PROPERTIES) &&
       AllSucceed(outcome, at, 4) && AllSucceed(outcome, at + 5, 5) {
      assert outcome(at) == VkSuccess && outcome(at + 1) == VkSuccess && outcome(at + 2) == VkSuccess;
      assert outcome(at + 3) == VkSuccess && outcome(at + 5) == VkSuccess && outcome(at + 6) == VkSuccess;
      assert outcome(at + 7) == VkSuccess && outcome(at + 8) == VkSuccess && outcome(at + 9) == VkSuccess;
    }
  }

  /** How `n` rounds of the setup loop end: the first round that throws, each round that
      gets through spending ten results. */
  function SetupOutcome(outcome: nat -> VkResult, memoryTypes: seq<bv32>, req: MemoryRequirements, at: nat, n: nat): Outcome
    requires |memoryTypes| <= 32
    decreases n
  {
    if n == 0 then Pass
    else
      var s := SlotOutcome(outcome, memoryTypes, req, at);
      if s.Fail? then s else SetupOutcome(outcome, memoryTypes, req, at + 10, n - 1)
  }

  /** The memory requirements of every uniform buffer. */
  function UniformRequirements(d: Driver): MemoryRequirements
  {
    d.requirements(BufferInfo(UBO_SIZE, BUFFER_USAGE_UNIFORM, SHARING_EXCLUSIVE))
  }

  /** `m` names an object that was live and owned by some wrapper in the earlier state. */
  predicate Earlier(m: Handle, live: map<nat, CreateInfo>, owner: map<nat, object>)
  {
    m.Native? && m.id in live && m.id in owner
  }

  /** A slot's uniform buffer: valid, of `UBO_SIZE` bytes, its memory bound and holding the
      first `UBO_SIZE` bytes of `ubo`. */
  ghost predicate UniformReady(d: Driver, b: Buffer, ubo: seq<bv8>)
    reads d, b
    requires |ubo| >= UBO_SIZE
  {
    b.drv == d && b.Valid() && b.bufferSize == UBO_SIZE && b.bufferMemory.Native? &&
    |d.Contents(b.bufferMemory)| >= UBO_SIZE && d.Contents(b.bufferMemory)[..UBO_SIZE] == ubo[..UBO_SIZE]
  }

  /** Lines 161-166: a host-visible uniform buffer of `UBO_SIZE` bytes holding `ubo`, moved
      into the vector's own element; the moved-from temporary is left with null handles. */
  method SetupUniform(device: Device, ubo: seq<bv8>) returns (r: Result<Buffer>)
    requires device.drv.Valid() && |device.physical.gpu.memoryTypes| <= 32 && |ubo| >= UBO_SIZE
    modifies device.drv`log, device.drv`next, device.drv`live, device.drv`owner, device.drv`memory
    ensures device.drv.Valid() && device.drv.KeepsAll()
    ensures var o := UniformOutcome(device.drv.outcome, device.physical.gpu.memoryTypes, UniformRequirements(device.drv),
                                    old(|device.drv.log|));
      (r.Ok? <==> o.Pass?) && (r.Err? ==> o == Fail(r.error))
    ensures r.Ok? ==> |device.drv.log| == old(|device.drv.log|) + 5
    ensures r.Err? ==> r.error in {RuntimeError(BufferCreation), RuntimeError(NoSuitableMemoryType),
                                   RuntimeError(BufferAllocation), RuntimeError(BufferBinding), RuntimeError(MemoryMapping)}
    ensures r.Ok? ==> fresh(r.value) && r.value.Valid() && r.value.drv == device.drv && r.value.bufferSize == UBO_SIZE
    ensures r.Ok? ==> (r.value.buffer.Native? &&
      device.drv.live[r.value.buffer.id] == BufferInfo(UBO_SIZE, BUFFER_USAGE_UNIFORM, SHARING_EXCLUSIVE))
    ensures r.Ok? ==> UniformReady(device.drv, r.value, ubo)
    ensures r.Ok? ==> forall m :: Earlier(m, old(device.drv.live), old(device.drv.owner)) ==> device.drv.Contents(m) == old(device.drv.Contents(m))
  {
    var made := Buffer.Create(device, BufferOptions(BUFFER_USAGE_UNIFORM, SHARING_EXCLUSIVE), UBO_SIZE);
    if made.Err? {
      return Err(made.error);
    }
    var uniformBuffer := made.value;
    var o := uniformBuffer.MapMemory(ubo, UBO_SIZE);
    if o.Fail? {
      return Err(o.error);
    }
    var kept := new Buffer.Copy(uniformBuffer);
    forall m | Earlier(m, old(device.drv.live), old(device.drv.owner))
      ensures device.drv.Contents(m) == old(device.drv.Contents(m))
    {
      assert m != kept.bufferMemory;
    }
    return Ok(kept);
  }

  /** The synchronisation objects of one slot. */
  datatype SlotSync = SlotSync(imageAvailable: Semaphore, renderFinished: Semaphore, inFlight: Fence)

  /** Lines 170-174: the slot's two semaphores and its fence, created signaled. The two
      semaphores are distinct objects of the driver. */
  method SetupSync(device: Device) returns (r: Result<SlotSync>)
    requires device.drv.Valid()
    modifies device.drv`log, device.drv`next, device.drv`live, device.drv`owner, device.drv`signaled
    ensures device.drv.Valid() && device.drv.KeepsAll()
    ensures var o := SyncOutcome(device.drv.outcome, old(|device.drv.log|)); (r.Ok? <==> o.Pass?) && (r.Err? ==> o == Fail(r.error))
    ensures r.Ok? ==> |device.drv.log| == old(|device.drv.log|) + 3
    ensures r.Err? ==> r.error in {RuntimeError(SemaphoreCreation), RuntimeError(FenceCreation)}
    ensures r.Ok? ==> (fresh(r.value.imageAvailable) && fresh(r.value.renderFinished) && fresh(r.value.inFlight) &&
      r.value.inFlight.drv == device.drv)
    ensures r.Ok? ==> (r.value.imageAvailable.semaphore.Native? && r.value.renderFinished.semaphore.Native? &&
      r.value.imageAvailable.semaphore != r.value.renderFinished.semaphore)
    ensures r.Ok? ==> r.value.inFlight.fence.Native? && r.value.inFlight.fence.id in device.drv.signaled
    ensures device.drv.signaled == if r.Ok? then old(device.drv.signaled) + {r.value.inFlight.fence.id}
                                   else old(device.drv.signaled)
  {
    assert StartsSignaled(FenceInfo(FENCE_CREATE_SIGNALED));
    var first := Semaphore.Create(device);
    if first.Err? {
      return Err(first.error);
    }
    assert first.value.semaphore.id in device.drv.live;
    var second := Semaphore.Create(device);
    if second.Err? {
      return Err(second.error);
    }
    var fence := Fence.Create(device, FenceOptions(FENCE_CREATE_SIGNALED));
    if fence.Err? {
      return Err(fence.error);
    }
    return Ok(SlotSync(first.value, second.value, fence.value));
  }

  /** Lines 168-169: the slot's descriptor set from the descriptor pool and its command
      buffer from the command pool; each pool keeps what it had and gains one entry. */
  method AllocateSlotEntries(device: Device, descriptorPool: DescriptorPool, layout: DescriptorSetLayout,
                             commandPool: CommandPool) returns (o: Outcome)
    requires device.drv.Valid()
    requires descriptorPool.drv == device.drv && commandPool.drv == device.drv
    requires descriptorPool.Valid() && commandPool.Valid()
    modifies device.drv`log, device.drv`next, device.drv`live, device.drv`owner, descriptorPool`sets, commandPool`commandBuffers
    ensures device.drv.Valid() && descriptorPool.Valid() && commandPool.Valid()
    ensures device.drv.KeepsAll() && device.drv.memory == old(device.drv.memory)
    ensures o == EntriesOutcome(device.drv.outcome, old(|device.drv.log|))
    ensures o.Pass? ==> |device.drv.log| == old(|device.drv.log|) + 2
    ensures o.Fail? ==> o.error in {RuntimeError(DescriptorSetAllocation), RuntimeError(CommandBufferAllocation)}
    ensures o.Pass? ==> (|descriptorPool.sets| == |old(descriptorPool.sets)| + 1 &&
      descriptorPool.sets[..|old(descriptorPool.sets)|] == old(descriptorPool.sets) &&
      descriptorPool.sets[|old(descriptorPool.sets)|].hasDevice)
    ensures o.Pass? ==> (|commandPool.commandBuffers| == |old(commandPool.commandBuffers)| + 1 &&
      commandPool.commandBuffers[..|old(commandPool.commandBuffers)|] == old(commandPool.commandBuffers) &&
      commandPool.commandBuffers[|old(commandPool.commandBuffers)|].drv == device.drv)
  {
    var descriptorSet := descriptorPool.AllocateDescriptorSet(layout);
    if descriptorSet.Err? {
      return Fail(descriptorSet.error);
    }
    var cb := commandPool.AllocateCommandBuffer();
    if cb.Err? {
      return Fail(cb.error);
    }
    return Pass;
  }

  /** A slot's synchronisation objects: two distinct semaphores and a fence of `d` that is
      signaled. */
  ghost predicate SyncReady(d: Driver, y: SlotSync)
    reads d, y.imageAvailable, y.renderFinished, y.inFlight
  {
    y.imageAvailable.semaphore.Native? && y.renderFinished.semaphore.Native? &&
    y.imageAvailable.semaphore != y.renderFinished.semaphore &&
    y.inFlight.drv == d && y.inFlight.fence.Native? && y.inFlight.fence.id in d.signaled
  }

  /** What one round of the setup loop creates besides the pool entries. */
  datatype SlotItems = SlotItems(uniformBuffer: Buffer, sync: SlotSync)

  /** Lines 161-174: one round of the setup loop. The descriptor pool gains one set and the
      command pool one command buffer; the slot's uniform buffer holds `ubo`; its two
      semaphores are distinct and its fence is signaled. */
  method SetupSlot(device: Device, descriptorPool: DescriptorPool, layout: DescriptorSetLayout,
                   commandPool: CommandPool, ubo: seq<bv8>) returns (r: Result<SlotItems>)
    requires device.drv.Valid() && |device.physical.gpu.memoryTypes| <= 32 && |ubo| >= UBO_SIZE
    requires descriptorPool.drv == device.drv && commandPool.drv == device.drv
    requires descriptorPool.Valid() && commandPool.Valid()
    modifies device.drv`log, device.drv`next, device.drv`live, device.drv`owner, device.drv`memory,
             device.drv`signaled, descriptorPool`sets, commandPool`commandBuffers
    ensures device.drv.Valid() && descriptorPool.Valid() && commandPool.Valid()
    ensures var o := SlotOutcome(device.drv.outcome, device.physical.gpu.memoryTypes, UniformRequirements(device.drv),
                                 old(|device.drv.log|));
      (r.Ok? <==> o.Pass?) && (r.Err? ==> o == Fail(r.error))
    ensures r.Ok? ==> |device.drv.log| == old(|device.drv.log|) + 10
    ensures r.Err? ==> SetupError(r.error)
    ensures r.Ok? ==> (|descriptorPool.sets| == |old(descriptorPool.sets)| + 1 &&
      descriptorPool.sets[..|old(descriptorPool.sets)|] == old(descriptorPool.sets) &&
      descriptorPool.sets[|old(descriptorPool.sets)|].hasDevice)
    ensures r.Ok? ==> (|commandPool.commandBuffers| == |old(commandPool.commandBuffers)| + 1 &&
      commandPool.commandBuffers[..|old(commandPool.commandBuffers)|] == old(commandPool.commandBuffers) &&
      commandPool.commandBuffers[|old(commandPool.commandBuffers)|].drv == device.drv)
    ensures device.drv.KeepsAll()
    ensures r.Ok? ==> fresh(r.value.uniformBuffer) && UniformReady(device.drv, r.value.uniformBuffer, ubo)
    ensures r.Ok? ==> forall m :: Earlier(m, old(device.drv.live), old(device.drv.owner)) ==> device.drv.Contents(m) == old(device.drv.Contents(m))
    ensures r.Ok? ==> (var y := r.value.sync;
      fresh(y.imageAvailable) && fresh(y.renderFinished) && fresh(y.inFlight) &&
      SyncReady(device.drv, y) && device.drv.signaled == old(device.drv.signaled) + {y.inFlight.fence.id})
    ensures r.Err? ==> device.drv.signaled >= old(device.drv.signaled)
  {
    var uniform := SetupUniform(device, ubo);
    if uniform.Err? {
      return Err(uniform.error);
    }
    var o := AllocateSlotEntries(device, descriptorPool, layout, commandPool);
    if o.Fail? {
      return Err(o.error);
    }
    assert device.drv.signaled == old(device.drv.signaled);
    var sync := SetupSync(device);
    if sync.Err? {
      return Err(sync.error);
    }
    assert SyncReady(device.drv, sync.value);
    return Ok(SlotItems(uniform.value, sync.value));
  }

  /** The errors the setup loop can throw. */
  predicate SetupError(e: Error)
  {
    e in {RuntimeError(BufferCreation), RuntimeError(NoSuitableMemoryType), RuntimeError(BufferAllocation),
          RuntimeError(BufferBinding), RuntimeError(MemoryMapping), RuntimeError(DescriptorSetAllocation),
          RuntimeError(CommandBufferAllocation), RuntimeError(SemaphoreCreation), RuntimeError(FenceCreation)}
  }

  /** The four vectors the setup loop fills, one entry per frame in flight. */
  datatype FrameObjects = FrameObjects(uniformBuffers: seq<Buffer>, imageAvailable: seq<Semaphore>,
                                       renderFinished: seq<Semaphore>, inFlight: seq<Fence>)

  /** After `n` rounds: each vector has `n` entries, every uniform buffer holds `ubo` and every
      slot's synchronisation objects are ready. */
  ghost predicate SetupSoFar(d: Driver, objs: FrameObjects, ubo: seq<bv8>, n: nat)
    reads d, objs.uniformBuffers, objs.imageAvailable, objs.renderFinished, objs.inFlight
    requires |ubo| >= UBO_SIZE
  {
    |objs.uniformBuffers| == n && |objs.imageAvailable| == n && |objs.renderFinished| == n && |objs.inFlight| == n &&
    (forall k :: 0 <= k < n ==> UniformReady(d, objs.uniformBuffers[k], ubo)) &&
    (forall k :: 0 <= k < n ==> SyncReady(d, SlotSync(objs.imageAvailable[k], objs.renderFinished[k], objs.inFlight[k])))
  }

  /** After `n` rounds: the descriptor pool's `sets` have gained `n` sets with a device and the
      command pool's `commandBuffers` `n` command buffers of `d`, after what they held before
      the loop. */
  predicate PoolsSoFar(d: Driver, sets: seq<DescriptorSet>, commandBuffers: seq<CommandBuffer>,
                       sets0: seq<DescriptorSet>, commandBuffers0: seq<CommandBuffer>, n: nat)
  {
    |sets| == |sets0| + n && sets[..|sets0|] == sets0 &&
    (forall k :: |sets0| <= k < |sets| ==> sets[k].hasDevice) &&
    |commandBuffers| == |commandBuffers0| + n && commandBuffers[..|commandBuffers0|] == commandBuffers0 &&
    (forall k :: |commandBuffers0| <= k < |commandBuffers| ==> commandBuffers[k].drv == d)
  }

  /** One more round: a set with a device and a command buffer of `d` appended to the pools. */
  lemma PoolsGrow(d: Driver, sets0: seq<DescriptorSet>, sets1: seq<DescriptorSet>, sets2: seq<DescriptorSet>,
                  commandBuffers0: seq<CommandBuffer>, commandBuffers1: seq<CommandBuffer>,
                  commandBuffers2: seq<CommandBuffer>, n: nat)
    requires PoolsSoFar(d, sets1, commandBuffers1, sets0, commandBuffers0, n)
    requires |sets2| == |sets1| + 1 && sets2[..|sets1|] == sets1 && sets2[|sets1|].hasDevice
    requires |commandBuffers2| == |commandBuffers1| + 1 && commandBuffers2[..|commandBuffers1|] == commandBuffers1 &&
             commandBuffers2[|commandBuffers1|].drv == d
    ensures PoolsSoFar(d, sets2, commandBuffers2, sets0, commandBuffers0, n + 1)
  {
    Extended(sets0, sets1, sets2);
    Extended(commandBuffers0, commandBuffers1, commandBuffers2);
    forall k | |sets0| <= k < |sets2|
      ensures sets2[k].hasDevice
    {
      if k < |sets1| {
        assert sets2[k] == sets2[..|sets1|][k];
      }
    }
    forall k | |commandBuffers0| <= k < |commandBuffers2|
      ensures commandBuffers2[k].drv == d
    {
      if k < |commandBuffers1| {
        assert commandBuffers2[k] == commandBuffers2[..|commandBuffers1|][k];
      }
    }
  }

  /** A new round's ready slot appended to `n` ready slots makes `n + 1`. */
  lemma SlotAppended(d: Driver, objs: FrameObjects, b: Buffer, y: SlotSync, ubo: seq<bv8>, n: nat)
    requires |ubo| >= UBO_SIZE && SetupSoFar(d, objs, ubo, n) && UniformReady(d, b, ubo) && SyncReady(d, y)
    ensures SetupSoFar(d, FrameObjects(objs.uniformBuffers + [b], objs.imageAvailable + [y.imageAvailable],
                                       objs.renderFinished + [y.renderFinished], objs.inFlight + [y.inFlight]), ubo, n + 1)
  {
  }

  /** A prefix of a prefix. */
  lemma Extended<T>(s0: seq<T>, s1: seq<T>, s2: seq<T>)
    requires |s0| <= |s1| <= |s2| && s1[..|s0|] == s0 && s2[..|s1|] == s1
    ensures s2[..|s0|] == s0
  {
    assert s2[..|s0|] == s2[..|s1|][..|s0|];
  }

  /** One round of the setup loop, appended to what the earlier rounds made. */
  method SetupStep(device: Device, descriptorPool: DescriptorPool, layout: DescriptorSetLayout, commandPool: CommandPool,
                   ubo: seq<bv8>, objs: FrameObjects, n: nat, ghost sets0: seq<DescriptorSet>,
                   ghost commandBuffers0: seq<CommandBuffer>) returns (r: Result<FrameObjects>)
    requires device.drv.Valid() && |device.physical.gpu.memoryTypes| <= 32 && |ubo| >= UBO_SIZE
    requires descriptorPool.drv == device.drv && commandPool.drv == device.drv
    requires descriptorPool.Valid() && commandPool.Valid()
    requires SetupSoFar(device.drv, objs, ubo, n) && PoolsSoFar(device.drv, descriptorPool.sets, commandPool.commandBuffers, sets0, commandBuffers0, n)
    modifies device.drv`log, device.drv`next, device.drv`live, device.drv`owner, device.drv`memory,
             device.drv`signaled, descriptorPool`sets, commandPool`commandBuffers
    ensures device.drv.Valid() && descriptorPool.Valid() && commandPool.Valid()
    ensures var o := SlotOutcome(device.drv.outcome, device.physical.gpu.memoryTypes, UniformRequirements(device.drv),
                                 old(|device.drv.log|));
      (r.Ok? <==> o.Pass?) && (r.Err? ==> o == Fail(r.error))
    ensures r.Ok? ==> |device.drv.log| == old(|device.drv.log|) + 10
    ensures r.Err? ==> SetupError(r.error)
    ensures r.Ok? ==> SetupSoFar(device.drv, r.value, ubo, n + 1)
    ensures r.Ok? ==> PoolsSoFar(device.drv, descriptorPool.sets, commandPool.commandBuffers, sets0, commandBuffers0, n + 1)
  {
    var slot := SetupSlot(device, descriptorPool, layout, commandPool, ubo);
    if slot.Err? {
      return Err(slot.error);
    }
    var b, y := slot.value.uniformBuffer, slot.value.sync;
    PoolsGrow(device.drv, sets0, old(descriptorPool.sets), descriptorPool.sets,
              commandBuffers0, old(commandPool.commandBuffers), commandPool.commandBuffers, n);
    ghost var d := device.drv;
    forall k | 0 <= k < n
      ensures UniformReady(d, objs.uniformBuffers[k], ubo)
    {
      var e := objs.uniformBuffers[k];
      assert old(d.Holds(e, e.bufferMemory, TypeDeviceMemory));
      assert Earlier(e.bufferMemory, old(d.live), old(d.owner));
    }
    SlotAppended(device.drv, objs, b, y, ubo, n);
    r := Ok(FrameObjects(objs.uniformBuffers + [b], objs.imageAvailable + [y.imageAvailable],
                         objs.renderFinished + [y.renderFinished], objs.inFlight + [y.inFlight]));
  }

  /** Lines 159-175: `MAX_FRAMES_IN_FLIGHT` rounds of uniform buffer, descriptor set,
      command buffer, two semaphores and a signaled fence; the first failure throws. */
  method SetupSlots(device: Device, descriptorPool: DescriptorPool, layout: DescriptorSetLayout, commandPool: CommandPool,
                    ubo: seq<bv8>) returns (r: Result<FrameObjects>)
    requires device.drv.Valid() && |device.physical.gpu.memoryTypes| <= 32 && |ubo| >= UBO_SIZE
    requires descriptorPool.drv == device.drv && commandPool.drv == device.drv
    requires descriptorPool.Valid() && commandPool.Valid()
    modifies device.drv`log, device.drv`next, device.drv`live, device.drv`owner, device.drv`memory,
             device.drv`signaled, descriptorPool`sets, commandPool`commandBuffers
    ensures device.drv.Valid() && descriptorPool.Valid() && commandPool.Valid()
    ensures var o := SetupOutcome(device.drv.outcome, device.physical.gpu.memoryTypes, UniformRequirements(device.drv),
                                  old(|device.drv.log|), MAX_FRAMES_IN_FLIGHT);
      (r.Ok? <==> o.Pass?) && (r.Err? ==> o == Fail(r.error))
    ensures r.Err? ==> SetupError(r.error)
    ensures r.Ok? ==> SetupSoFar(device.drv, r.value, ubo, MAX_FRAMES_IN_FLIGHT)
    ensures r.Ok? ==> PoolsSoFar(device.drv, descriptorPool.sets, commandPool.commandBuffers, old(descriptorPool.sets),
                                 old(commandPool.commandBuffers), MAX_FRAMES_IN_FLIGHT)
  {
    ghost var sets0, commandBuffers0, log0 := descriptorPool.sets, commandPool.commandBuffers, device.drv.log;
    var objs := FrameObjects([], [], [], []);
    var i := 0;
    while i < MAX_FRAMES_IN_FLIGHT
      invariant i <= MAX_FRAMES_IN_FLIGHT
      invariant device.drv.Valid() && descriptorPool.Valid() && commandPool.Valid()
      invariant SetupSoFar(device.drv, objs, ubo, i) && PoolsSoFar(device.drv, descriptorPool.sets, commandPool.commandBuffers, sets0, commandBuffers0, i)
      invariant SetupOutcome(device.drv.outcome, device.physical.gpu.memoryTypes, UniformRequirements(device.drv), |log0|, MAX_FRAMES_IN_FLIGHT) ==
                SetupOutcome(device.drv.outcome, device.physical.gpu.memoryTypes, UniformRequirements(device.drv), |device.drv.log|, MAX_FRAMES_IN_FLIGHT - i)
    {
      var step := SetupStep(device, descriptorPool, layout, commandPool, ubo, objs, i, sets0, commandBuffers0);
      if step.Err? {
        return Err(step.error);
      }
      objs := step.value;
      i := i + 1;
    }
    return Ok(objs);
  }

  /** The setup leaves every fence signaled with nothing pending: the render loop's ledger
      holds from its first frame, and each slot waits and signals on different semaphores. */
  lemma {:induction false} SetupStartsInFlight(d: Driver, objs: FrameObjects, ubo: seq<bv8>, n: nat)
    requires |ubo| >= UBO_SIZE && SetupSoFar(d, objs, ubo, n)
    ensures InFlight([], d.signaled, FenceHandles(objs.inFlight))
    ensures forall k :: 0 <= k < n ==> objs.imageAvailable[k].semaphore != objs.renderFinished[k].semaphore
  {
    var fs := FenceHandles(objs.inFlight);
    forall k | 0 <= k < |fs|
      ensures fs[k].Native? && fs[k].id in d.signaled
    {
      assert SyncReady(d, SlotSync(objs.imageAvailable[k], objs.renderFinished[k], objs.inFlight[k]));
    }
    forall k | 0 <= k < n
      ensures objs.imageAvailable[k].semaphore != objs.renderFinished[k].semaphore
    {
      assert SyncReady(d, SlotSync(objs.imageAvailable[k], objs.renderFinished[k], objs.inFlight[k]));
    }
  }

  // ---------------------------------------------------------------------------
  // Descriptor set updates

  /** Lines 220-235: the update of one descriptor set: the slot's uniform buffer, `UBO_SIZE`
      bytes, at binding 0; the texture's view and sampler at binding 1. */
  function SlotUpdateInfo(uniform: Handle, view: Handle, sampler: Handle): DescriptorSetUpdateInfo
  {
    DescriptorSetUpdateInfo([BufferUpdateInfo(uniform, UBO_SIZE, 0, 0, DESCRIPTOR_UNIFORM_BUFFER)],
                            [TextureUpdateInfo(view, sampler, 1, 0, LayoutShaderReadOnlyOptimal)])
  }

  /** Each set is written with exactly two descriptors: the uniform buffer from offset 0
      over `UBO_SIZE` bytes at binding 0, and the combined image sampler in the
      shader-read-only layout at binding 1. */
  lemma {:induction false} SlotUpdateWrites(dst: Handle, uniform: Handle, view: Handle, sampler: Handle)
    ensures Writes(dst, SlotUpdateInfo(uniform, view, sampler)) == [
      DescriptorWrite(dst, 0, 0, 1, DESCRIPTOR_UNIFORM_BUFFER, None, Some(DescriptorBufferInfo(uniform, 0, UBO_SIZE))),
      DescriptorWrite(dst, 1, 0, 1, DESCRIPTOR_COMBINED_IMAGE_SAMPLER,
                      Some(DescriptorImageInfo(sampler, view, LayoutShaderReadOnlyOptimal)), None)]
  {
    WritesShape(dst, SlotUpdateInfo(uniform, view, sampler));
  }

  /** The handles of the descriptor sets: a projection of the `descriptorSet` field. */
  function SetHandles(sets: seq<DescriptorSet>): (hs: seq<Handle>)
    reads sets
    ensures |hs| == |sets| && forall k :: 0 <= k < |sets| ==> hs[k] == sets[k].descriptorSet
  {
    if sets == [] then [] else [sets[0].descriptorSet] + SetHandles(sets[1..])
  }

  /** The handles of the buffers: a projection of the `buffer` field. */
  function BufferHandles(buffers: seq<Buffer>): (hs: seq<Handle>)
    reads buffers
    ensures |hs| == |buffers| && forall k :: 0 <= k < |buffers| ==> hs[k] == buffers[k].buffer
  {
    if buffers == [] then [] else [buffers[0].buffer] + BufferHandles(buffers[1..])
  }

  /** The log of updating each of `sets` with its uniform buffer and the texture, the
      results drawn from `outcome` from position `start` on. */
  function UpdateEvents(outcome: nat -> VkResult, start: nat, sets: seq<Handle>, uniforms: seq<Handle>,
                        view: Handle, sampler: Handle): seq<Event>
    requires |uniforms| >= |sets|
  {
    seq(|sets|, k requires 0 <= k < |sets| =>
      Called(VkUpdateDescriptorSets(Writes(sets[k], SlotUpdateInfo(uniforms[k], view, sampler))), outcome(start + k)))
  }

  /** One more set updated: its event follows those of the sets before it. */
  lemma UpdateEventsSnoc(outcome: nat -> VkResult, start: nat, sets: seq<Handle>, uniforms: seq<Handle>,
                         view: Handle, sampler: Handle, i: nat)
    requires i < |sets| && |uniforms| >= |sets|
    ensures UpdateEvents(outcome, start, sets[..i + 1], uniforms[..i + 1], view, sampler) ==
            UpdateEvents(outcome, start, sets[..i], uniforms[..i], view, sampler) +
            [Called(VkUpdateDescriptorSets(Writes(sets[i], SlotUpdateInfo(uniforms[i], view, sampler))), outcome(start + i))]
  {
  }

  /** Uniform buffers past the last set play no part. */
  lemma UpdateEventsPrefix(outcome: nat -> VkResult, start: nat, sets: seq<Handle>, uniforms: seq<Handle>,
                           view: Handle, sampler: Handle)
    requires |uniforms| >= |sets|
    ensures UpdateEvents(outcome, start, sets, uniforms[..|sets|], view, sampler) ==
            UpdateEvents(outcome, start, sets, uniforms, view, sampler)
  {
  }

  /** Lines 218-238: every descriptor set of the pool, in order, is updated with the uniform
      buffer of the same index and the texture; one `vkUpdateDescriptorSets` per set. The
      source indexes `uniformBuffers` by the set's index, so there must be as many. */
  method WriteDescriptorSets(d: Driver, sets: seq<DescriptorSet>, uniformBuffers: seq<Buffer>, texture: Texture)
    requires |uniformBuffers| >= |sets|
    requires forall k :: 0 <= k < |sets| ==> sets[k].hasDevice && sets[k].drv == d
    modifies d`log
    ensures d.log == old(d.log) + UpdateEvents(d.outcome, |old(d.log)|, SetHandles(sets), BufferHandles(uniformBuffers),
                                               texture.imageView, texture.sampler)
  {
    ghost var hs, us := SetHandles(sets), BufferHandles(uniformBuffers);
    ghost var start := |d.log|;
    var i := 0;
    while i < |sets|
      invariant i <= |sets|
      invariant d.log == old(d.log) + UpdateEvents(d.outcome, start, hs[..i], us[..i], texture.imageView, texture.sampler)
    {
      sets[i].UpdateDescriptorSet(SlotUpdateInfo(uniformBuffers[i].buffer, texture.imageView, texture.sampler));
      UpdateEventsSnoc(d.outcome, start, hs, us, texture.imageView, texture.sampler, i);
      i := i + 1;
    }
    assert hs[..i] == hs && us[..i] == us[..|sets|];
    UpdateEventsPrefix(d.outcome, start, hs, us, texture.imageView, texture.sampler);
  }
}
