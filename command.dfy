/** `basicvk::CommandPool` and `basicvk::CommandBuffer`: a pool and the command buffers
    allocated from it, the commands the wrappers record (layout transitions, the mip
    chain, buffer copies, render-pass drawing) and the queue submission. */
module Commands {
  import opened Vk
  import opened Gpu
  import opened Devices
  import opened Buffers
  import opened Swapchains
  import opened Framebuffers
  import opened Descriptors
  import opened Synchronous

  // ---------------------------------------------------------------------------
  // Layout transitions

  /** The access masks and pipeline stages of a layout-transition barrier. */
  datatype Transition = Transition(srcAccess: bv32, dstAccess: bv32, srcStage: bv32, dstStage: bv32)

  /** The two transitions `transitionImageLayout` supports: into a copy destination from
      nothing, and from a copy destination to shader reading. */
  predicate Supported(oldLayout: ImageLayout, newLayout: ImageLayout) {
    (oldLayout == LayoutUndefined && newLayout == LayoutTransferDstOptimal) ||
    (oldLayout == LayoutTransferDstOptimal && newLayout == LayoutShaderReadOnlyOptimal)
  }

  /** The barrier parameters `transitionImageLayout` selects for a pair of layouts; any
      other pair throws `std::invalid_argument`. */
  function TransitionFor(oldLayout: ImageLayout, newLayout: ImageLayout): (r: Result<Transition>)
    ensures r.Ok? <==> Supported(oldLayout, newLayout)
    ensures r.Err? ==> r.error == InvalidArgument(UnsupportedTransition)
  {
    if oldLayout == LayoutUndefined && newLayout == LayoutTransferDstOptimal then
      Ok(Transition(ACCESS_NONE, ACCESS_TRANSFER_WRITE, STAGE_TOP_OF_PIPE, STAGE_TRANSFER))
    else if oldLayout == LayoutTransferDstOptimal && newLayout == LayoutShaderReadOnlyOptimal then
      Ok(Transition(ACCESS_TRANSFER_WRITE, ACCESS_SHADER_READ, STAGE_TRANSFER, STAGE_FRAGMENT_SHADER))
    else
      Err(InvalidArgument(UnsupportedTransition))
  }

  /** The upload path of a texture: a copy destination is written by transfers only, and
      the second transition waits for exactly the access and stage the first one made
      available, so the two supported transitions chain. */
  lemma UploadTransitions()
    ensures TransitionFor(LayoutUndefined, LayoutTransferDstOptimal) ==
      Ok(Transition(ACCESS_NONE, ACCESS_TRANSFER_WRITE, STAGE_TOP_OF_PIPE, STAGE_TRANSFER))
    ensures TransitionFor(LayoutTransferDstOptimal, LayoutShaderReadOnlyOptimal) ==
      Ok(Transition(ACCESS_TRANSFER_WRITE, ACCESS_SHADER_READ, STAGE_TRANSFER, STAGE_FRAGMENT_SHADER))
    ensures var first := TransitionFor(LayoutUndefined, LayoutTransferDstOptimal).value;
            var second := TransitionFor(LayoutTransferDstOptimal, LayoutShaderReadOnlyOptimal).value;
            first.dstAccess == second.srcAccess && first.dstStage == second.srcStage
  {
  }

  /** No transition starts from a layout the upload path never leaves an image in. */
  lemma {:induction false} TransitionsOnlyFromUploadLayouts(oldLayout: ImageLayout, newLayout: ImageLayout)
    requires oldLayout != LayoutUndefined && oldLayout != LayoutTransferDstOptimal
    ensures TransitionFor(oldLayout, newLayout) == Err(InvalidArgument(UnsupportedTransition))
  {
  }

  // ---------------------------------------------------------------------------
  // Buffer copies

  /** The size `CopyBuffer` copies: the smaller of the two buffer sizes. */
  function CopySize(srcSize: uint64, dstSize: uint64): (n: uint64)
    ensures n <= srcSize && n <= dstSize
    ensures n == srcSize || n == dstSize
  {
    if srcSize <= dstSize then srcSize else dstSize
  }

  // ---------------------------------------------------------------------------
  // The mip chain

  /** The size of the next level a blit writes: half the size, or 1 once it is 1 or less. */
  function Half(x: int32): (r: int32)
    ensures r >= 1
    ensures x > 1 ==> r == x / 2 && r < x
    ensures x <= 1 ==> r == 1
  {
    if x > 1 then x / 2 else 1
  }

  /** The update of the tracked size after each level: halved while above 1, else kept. */
  function Shrink(x: int32): (r: int32)
    ensures x > 1 ==> r == x / 2
    ensures x <= 1 ==> r == x
  {
    if x > 1 then x / 2 else x
  }

  /** The tracked size after `k` levels. */
  function Shrunk(x: int32, k: nat): int32
  {
    if k == 0 then x else Shrunk(Shrink(x), k - 1)
  }

  /** A barrier on one mip level of the colour aspect. */
  function LevelBarrier(image: Handle, level: uint32, oldLayout: ImageLayout, newLayout: ImageLayout,
                        srcAccess: bv32, dstAccess: bv32, srcStage: bv32, dstStage: bv32): Cmd
  {
    PipelineBarrier(srcStage, dstStage, ImageBarrier(image, oldLayout, newLayout, srcAccess, dstAccess, level, 1))
  }

  /** The three commands of round `i` of the mip loop, with the tracked size `w` x `h`:
      level `i - 1` becomes a blit source, is blitted (halved) into level `i`, and
      becomes shader-readable. */
  function LevelCommands(image: Handle, i: uint32, w: int32, h: int32): seq<Cmd>
    requires i >= 1
  {
    [LevelBarrier(image, i - 1, LayoutTransferDstOptimal, LayoutTransferSrcOptimal,
                  ACCESS_TRANSFER_WRITE, ACCESS_TRANSFER_READ, STAGE_TRANSFER, STAGE_TRANSFER),
     BlitImage(image, i - 1, Offset2D(w, h), i, Offset2D(Half(w), Half(h))),
     LevelBarrier(image, i - 1, LayoutTransferSrcOptimal, LayoutShaderReadOnlyOptimal,
                  ACCESS_TRANSFER_READ, ACCESS_SHADER_READ, STAGE_TRANSFER, STAGE_FRAGMENT_SHADER)]
  }

  /** Rounds `i` to `n - 1` of the mip loop, starting from the tracked size `w` x `h`. */
  function MipLoop(image: Handle, i: nat, n: uint32, w: int32, h: int32): seq<Cmd>
    requires i >= 1
    decreases n - i
  {
    if i >= n then [] else LevelCommands(image, i, w, h) + MipLoop(image, i + 1, n, Shrink(w), Shrink(h))
  }

  /** The barrier after the loop: the last level (`mipLevels - 1`, a `uint32_t`) goes from
      copy destination to shader-readable. */
  function FinalBarrier(image: Handle, n: uint32): Cmd
  {
    LevelBarrier(image, ToUint32(n as int - 1), LayoutTransferDstOptimal, LayoutShaderReadOnlyOptimal,
                 ACCESS_TRANSFER_WRITE, ACCESS_SHADER_READ, STAGE_TRANSFER, STAGE_FRAGMENT_SHADER)
  }

  /** Everything `generateMipMap` records for an image of `n` levels whose level 0 is
      `w` x `h`. */
  function MipCommands(image: Handle, w: int32, h: int32, n: uint32): seq<Cmd>
  {
    MipLoop(image, 1, n, w, h) + [FinalBarrier(image, n)]
  }

  /** Each round of the loop records three commands. */
  lemma {:induction false} MipLoopLength(image: Handle, i: nat, n: uint32, w: int32, h: int32)
    requires i >= 1
    ensures |MipLoop(image, i, n, w, h)| == if i < n then 3 * (n - i) else 0
    decreases n - i
  {
    if i < n {
      MipLoopLength(image, i + 1, n, Shrink(w), Shrink(h));
    }
  }

  /** Round `j` of the loop records the three level commands of level `j`, on the size
      tracked after `j - i` rounds. */
  lemma {:induction false} MipLoopAt(image: Handle, i: nat, n: uint32, w: int32, h: int32, j: nat)
    requires 1 <= i <= j < n
    ensures 3 * (j - i) + 3 <= |MipLoop(image, i, n, w, h)|
    ensures MipLoop(image, i, n, w, h)[3 * (j - i)..3 * (j - i) + 3] ==
            LevelCommands(image, j, Shrunk(w, j - i), Shrunk(h, j - i))
    decreases j - i
  {
    var rest := MipLoop(image, i + 1, n, Shrink(w), Shrink(h));
    assert MipLoop(image, i, n, w, h) == LevelCommands(image, i, w, h) + rest;
    if j > i {
      MipLoopAt(image, i + 1, n, Shrink(w), Shrink(h), j);
      assert MipLoop(image, i, n, w, h)[3 * (j - i)..3 * (j - i) + 3] == rest[3 * (j - i - 1)..3 * (j - i - 1) + 3];
    }
  }

  /** A tracked size that starts at 1 or more stays at 1 or more. */
  lemma {:induction false} ShrunkPositive(x: int32, k: nat)
    requires x >= 1
    ensures Shrunk(x, k) >= 1
  {
    if k > 0 {
      ShrunkPositive(Shrink(x), k - 1);
    }
  }

  /** For `n >= 1` levels the mip chain is 3 commands per level `1..n-1` and one final
      barrier on level `n - 1`, `3(n - 1) + 1` commands in all; commands `3(j - 1)` to
      `3j - 1` are the round of level `j`. */
  lemma MipCommandsShape(image: Handle, w: int32, h: int32, n: uint32)
    requires n >= 1
    ensures |MipCommands(image, w, h, n)| == 3 * (n - 1) + 1
    ensures MipCommands(image, w, h, n)[3 * (n - 1)] == FinalBarrier(image, n)
    ensures FinalBarrier(image, n).barrier.baseMipLevel == n - 1
    ensures forall j :: 1 <= j < n ==>
      MipCommands(image, w, h, n)[3 * (j - 1)..3 * j] == LevelCommands(image, j, Shrunk(w, j - 1), Shrunk(h, j - 1))
  {
    MipLoopLength(image, 1, n, w, h);
    forall j | 1 <= j < n
      ensures MipCommands(image, w, h, n)[3 * (j - 1)..3 * j] == LevelCommands(image, j, Shrunk(w, j - 1), Shrunk(h, j - 1))
    {
      MipLoopAt(image, 1, n, w, h, j);
      assert MipCommands(image, w, h, n)[3 * (j - 1)..3 * j] == MipLoop(image, 1, n, w, h)[3 * (j - 1)..3 * (j - 1) + 3];
    }
  }

  /** With a texture of zero levels the loop does not run and the final barrier names
      level `0xFFFFFFFF`, the `uint32_t` wrap of `0 - 1`. */
  lemma MipCommandsOfNoLevels(image: Handle, w: int32, h: int32)
    ensures MipCommands(image, w, h, 0) == [FinalBarrier(image, 0)]
    ensures FinalBarrier(image, 0).barrier.baseMipLevel == UINT32_MAX
  {
  }

  /** Round `j` blits level `j - 1` into level `j`: it reads the tracked size `s` and writes
      `max(s / 2, 1)` in each dimension; for a texture of at least 1 x 1 the sizes read are
      never below 1, and what round `j` writes is exactly what round `j + 1` reads. */
  lemma {:induction false} MipBlits(image: Handle, w: int32, h: int32, n: uint32, j: nat)
    requires 1 <= j < n
    ensures |MipCommands(image, w, h, n)| == 3 * (n - 1) + 1
    ensures var blit := MipCommands(image, w, h, n)[3 * (j - 1) + 1];
      blit.BlitImage? && blit.image == image && blit.srcLevel == j - 1 && blit.dstLevel == j &&
      blit.srcEnd == Offset2D(Shrunk(w, j - 1), Shrunk(h, j - 1)) &&
      blit.dstEnd == Offset2D(Half(blit.srcEnd.x), Half(blit.srcEnd.y)) &&
      (w >= 1 ==> blit.srcEnd.x >= 1) && (h >= 1 ==> blit.srcEnd.y >= 1)
    ensures j + 1 < n && w >= 1 && h >= 1 ==>
      MipCommands(image, w, h, n)[3 * j + 1].BlitImage? &&
      MipCommands(image, w, h, n)[3 * (j - 1) + 1].dstEnd == MipCommands(image, w, h, n)[3 * j + 1].srcEnd
  {
    MipCommandsShape(image, w, h, n);
    var cmds := MipCommands(image, w, h, n);
    assert cmds[3 * (j - 1) + 1] == cmds[3 * (j - 1)..3 * j][1];
    if w >= 1 {
      ShrunkPositive(w, j - 1);
    }
    if h >= 1 {
      ShrunkPositive(h, j - 1);
    }
    if j + 1 < n && w >= 1 && h >= 1 {
      assert cmds[3 * j + 1] == cmds[3 * j..3 * (j + 1)][1];
      ShrunkStep(w, j - 1);
      ShrunkStep(h, j - 1);
    }
  }

  /** One more round shrinks the tracked size once more. */
  lemma {:induction false} ShrunkStep(x: int32, k: nat)
    ensures Shrunk(x, k + 1) == Shrink(Shrunk(x, k))
  {
    if k > 0 {
      ShrunkStep(Shrink(x), k - 1);
    }
  }

  /** One round of the loop: the rounds done so far, this round's commands and the rounds
      left still make up the whole loop. */
  lemma MipLoopStep(image: Handle, i: nat, n: uint32, w: int32, h: int32, done: seq<Cmd>)
    requires 1 <= i < n
    ensures done + MipLoop(image, i, n, w, h) ==
            (done + LevelCommands(image, i, w, h)) + MipLoop(image, i + 1, n, Shrink(w), Shrink(h))
  {
  }

  /** The recorded commands while `done` has been appended to the `before` commands of
      `cb` in `m0`: one more append gives `before + done + more`. */
  lemma RecordedSoFar(m0: map<Handle, seq<Cmd>>, cb: Handle, before: seq<Cmd>, done: seq<Cmd>, more: seq<Cmd>)
    requires before == if cb in m0 then m0[cb] else []
    ensures var m := if done == [] then m0 else m0[cb := before + done];
      (if cb in m then m[cb] else []) == before + done &&
      m[cb := before + done + more] == m0[cb := before + (done + more)]
  {
    assert before + done + more == before + (done + more);
  }

  // ---------------------------------------------------------------------------
  // Command buffers and the pool

  class CommandBuffer {
    const drv: Driver
    const queue: Queue
    var commandBuffer: Handle

    /** The member initialisers: a null command buffer on `queue`. */
    constructor Empty(drv: Driver, queue: Queue)
      ensures this.drv == drv && this.queue == queue && commandBuffer == Null
    {
      this.drv := drv;
      this.queue := queue;
      commandBuffer := Null;
    }

    /** `CommandBuffer(device, pool, queue)`: `vkAllocateCommandBuffers` of one primary
        buffer from the pool; failure throws. The buffer belongs to the pool, so it has no
        holder of its own. */
    static method Create(drv: Driver, pool: Handle, queue: Queue) returns (r: Result<CommandBuffer>)
      requires drv.Valid()
      modifies drv`log, drv`next, drv`live, drv`owner
      ensures drv.Valid() && drv.owner == old(drv.owner)
      ensures r.Ok? <==> old(drv.Upcoming()) == VkSuccess
      ensures r.Err? ==> r.error == RuntimeError(CommandBufferAllocation)
      ensures r.Ok? ==> fresh(r.value) && r.value.drv == drv && r.value.queue == queue
      ensures r.Ok? ==> r.value.commandBuffer.Native? && r.value.commandBuffer.id in drv.live && drv.live[r.value.commandBuffer.id] == CommandBufferInfo(pool)
      ensures drv.log == old(drv.log) + [if r.Ok? then Created(r.value.commandBuffer.id, CommandBufferInfo(pool))
                                         else CreateFailed(CommandBufferInfo(pool), old(drv.Upcoming()))]
      ensures drv.KeepsAll()
    {
      var c := new CommandBuffer.Empty(drv, queue);
      var res, h := drv.Create(CommandBufferInfo(pool), None);
      c.commandBuffer := h;
      if res != VkSuccess {
        return Err(RuntimeError(CommandBufferAllocation));
      }
      return Ok(c);
    }

    /** `CommandBuffer(CommandBuffer&)`: takes the handle and nulls `other`'s. The queue is
        not in the initialiser list, so the copy gets `Queue()`, the null queue. */
    constructor Copy(other: CommandBuffer)
      modifies other`commandBuffer
      ensures drv == other.drv && commandBuffer == old(other.commandBuffer) && other.commandBuffer == Null
      ensures queue == DefaultQueue()
    {
      drv := other.drv;
      commandBuffer := other.commandBuffer;
      queue := DefaultQueue();
      new;
      other.commandBuffer := Null;
    }

    /** `operator=`: returns a new command buffer built from `other`. */
    method Assign(other: CommandBuffer) returns (r: CommandBuffer)
      modifies other`commandBuffer
      ensures fresh(r) && r.commandBuffer == old(other.commandBuffer) && other.commandBuffer == Null
      ensures r.queue == DefaultQueue()
      ensures this != other ==> commandBuffer == old(commandBuffer)
    {
      r := new CommandBuffer.Copy(other);
    }

    /** `beginCommandBuffer`: `vkBeginCommandBuffer` with the usage flags; failure throws. */
    method Begin(usage: bv32) returns (o: Outcome)
      modifies drv`log, drv`recorded
      ensures o == if old(drv.Upcoming()) == VkSuccess then Pass else Fail(RuntimeError(RecordingBegin))
      ensures drv.recorded == if o.Pass? then old(drv.recorded)[commandBuffer := []] else old(drv.recorded)
      ensures drv.log == old(drv.log) + [Called(VkBeginCommandBuffer(commandBuffer, usage), old(drv.Upcoming()))]
    {
      var res := drv.Restart(VkBeginCommandBuffer(commandBuffer, usage));
      o := if res == VkSuccess then Pass else Fail(RuntimeError(RecordingBegin));
    }

    /** `endCommandBuffer`: `vkEndCommandBuffer`; failure throws. */
    method End() returns (o: Outcome)
      modifies drv`log
      ensures o == if old(drv.Upcoming()) == VkSuccess then Pass else Fail(RuntimeError(RecordingEnd))
      ensures drv.log == old(drv.log) + [Called(VkEndCommandBuffer(commandBuffer), old(drv.Upcoming()))]
    {
      var res := drv.Invoke(VkEndCommandBuffer(commandBuffer));
      o := if res == VkSuccess then Pass else Fail(RuntimeError(RecordingEnd));
    }

    /** `resetCommandBuffer`: `vkResetCommandBuffer` without flags; failure throws. */
    method Reset() returns (o: Outcome)
      modifies drv`log, drv`recorded
      ensures o == if old(drv.Upcoming()) == VkSuccess then Pass else Fail(RuntimeError(CommandBufferReset))
      ensures drv.recorded == if o.Pass? then old(drv.recorded)[commandBuffer := []] else old(drv.recorded)
      ensures drv.log == old(drv.log) + [Called(VkResetCommandBuffer(commandBuffer), old(drv.Upcoming()))]
    {
      var res := drv.Restart(VkResetCommandBuffer(commandBuffer));
      o := if res == VkSuccess then Pass else Fail(RuntimeError(CommandBufferReset));
    }

    /** `CopyBuffer`: one region at offset 0 in both buffers, of the smaller size. */
    method CopyBuffer(src: Buffer, dst: Buffer)
      modifies drv`recorded
      ensures drv.recorded == old(drv.recorded)[commandBuffer := old(drv.Recorded(commandBuffer)) +
                [Cmd.CopyBuffer(src.buffer, dst.buffer, BufferCopy(0, 0, CopySize(src.bufferSize, dst.bufferSize)))]]
    {
      var size := if src.bufferSize <= dst.bufferSize then src.bufferSize else dst.bufferSize;
      drv.Record(commandBuffer, [Cmd.CopyBuffer(src.buffer, dst.buffer, BufferCopy(0, 0, size))]);
    }

    /** `CopyBufferToTexture`: the whole buffer into level 0 of the image, which must be in
        the copy-destination layout, over the texture's width and height. */
    method CopyBufferToTexture(src: Buffer, dest: Texture)
      modifies drv`recorded
      ensures drv.recorded == old(drv.recorded)[commandBuffer := old(drv.Recorded(commandBuffer)) +
                [CopyBufferToImage(src.buffer, dest.image, LayoutTransferDstOptimal, dest.width, dest.height)]]
    {
      drv.Record(commandBuffer, [CopyBufferToImage(src.buffer, dest.image, LayoutTransferDstOptimal, dest.width, dest.height)]);
    }

    /** `transitionImageLayout(texture, format, newLayout)`: from the texture's current
        layout, one barrier over all its mip levels with the selected access masks and
        stages, after which the texture records the new layout. An unsupported pair throws
        before anything is recorded. The format is not used. */
    method TransitionImageLayout(texture: Texture, format: Format, newLayout: ImageLayout) returns (o: Outcome)
      modifies texture`imageLayout, drv`recorded
      ensures var t := TransitionFor(old(texture.imageLayout), newLayout);
        if t.Err? then
          o == Fail(t.error) && texture.imageLayout == old(texture.imageLayout) && drv.recorded == old(drv.recorded)
        else
          o == Pass && texture.imageLayout == newLayout &&
          drv.recorded == old(drv.recorded)[commandBuffer := old(drv.Recorded(commandBuffer)) +
            [PipelineBarrier(t.value.srcStage, t.value.dstStage,
               ImageBarrier(texture.image, old(texture.imageLayout), newLayout, t.value.srcAccess, t.value.dstAccess,
                            0, texture.mipLevels))]]
    {
      var oldLayout := texture.imageLayout;
      var srcAccess, dstAccess, sourceStage, destinationStage;
      if oldLayout == LayoutUndefined && newLayout == LayoutTransferDstOptimal {
        srcAccess, dstAccess := ACCESS_NONE, ACCESS_TRANSFER_WRITE;
        sourceStage, destinationStage := STAGE_TOP_OF_PIPE, STAGE_TRANSFER;
      } else if oldLayout == LayoutTransferDstOptimal && newLayout == LayoutShaderReadOnlyOptimal {
        srcAccess, dstAccess := ACCESS_TRANSFER_WRITE, ACCESS_SHADER_READ;
        sourceStage, destinationStage := STAGE_TRANSFER, STAGE_FRAGMENT_SHADER;
      } else {
        return Fail(InvalidArgument(UnsupportedTransition));
      }
      var barrier := ImageBarrier(texture.image, oldLayout, newLayout, srcAccess, dstAccess, 0, texture.mipLevels);
      drv.Record(commandBuffer, [PipelineBarrier(sourceStage, destinationStage, barrier)]);
      texture.imageLayout := newLayout;
      return Pass;
    }

    /** `generateMipMap`: for each level `i` in `1..mipLevels-1`, a barrier, a blit from
        level `i - 1` and a barrier, halving the tracked `int32_t` size (initialised from
        the texture's `uint32_t` size) while it is above 1; then the final barrier. The
        texture then records the shader-readable layout. */
    method GenerateMipMap(texture: Texture)
      modifies texture`imageLayout, drv`recorded
      ensures texture.imageLayout == LayoutShaderReadOnlyOptimal
      ensures drv.recorded == old(drv.recorded)[commandBuffer := old(drv.Recorded(commandBuffer)) +
                MipCommands(texture.image, ToInt32(texture.width), ToInt32(texture.height), texture.mipLevels)]
    {
      var image := texture.image;
      var mipWidth, mipHeight := ToInt32(texture.width), ToInt32(texture.height);
      var mipLevels := texture.mipLevels;
      ghost var before := drv.Recorded(commandBuffer);
      ghost var whole := MipLoop(image, 1, mipLevels, mipWidth, mipHeight);
      ghost var done: seq<Cmd> := [];
      var i: nat := 1;
      while i < mipLevels
        invariant i >= 1
        invariant done + MipLoop(image, i, mipLevels, mipWidth, mipHeight) == whole
        invariant drv.recorded == if done == [] then old(drv.recorded) else old(drv.recorded)[commandBuffer := before + done]
        decreases mipLevels - i
      {
        MipLoopStep(image, i, mipLevels, mipWidth, mipHeight, done);
        ghost var level := LevelCommands(image, i, mipWidth, mipHeight);
        mipWidth, mipHeight := RecordLevel(image, i, mipWidth, mipHeight, old(drv.recorded), before, done);
        done := done + level;
        i := i + 1;
      }
      assert done == whole;
      var last := ImageBarrier(image, LayoutTransferDstOptimal, LayoutShaderReadOnlyOptimal,
                               ACCESS_TRANSFER_WRITE, ACCESS_SHADER_READ, ToUint32(mipLevels as int - 1), 1);
      RecordedSoFar(old(drv.recorded), commandBuffer, before, done, [PipelineBarrier(STAGE_TRANSFER, STAGE_FRAGMENT_SHADER, last)]);
      drv.Record(commandBuffer, [PipelineBarrier(STAGE_TRANSFER, STAGE_FRAGMENT_SHADER, last)]);
      assert PipelineBarrier(STAGE_TRANSFER, STAGE_FRAGMENT_SHADER, last) == FinalBarrier(image, mipLevels);
      texture.imageLayout := LayoutShaderReadOnlyOptimal;
    }

    /** One round of the `generateMipMap` loop: the barrier, the blit of level `i - 1`
        into level `i` and the second barrier, recorded in that order, then the tracked
        size halved where it is above 1. */
    method RecordLevel(image: Handle, i: uint32, mipWidth: int32, mipHeight: int32,
                       ghost m0: map<Handle, seq<Cmd>>, ghost before: seq<Cmd>, ghost done: seq<Cmd>)
      returns (nextWidth: int32, nextHeight: int32)
      requires i >= 1
      requires before == if commandBuffer in m0 then m0[commandBuffer] else []
      requires drv.recorded == if done == [] then m0 else m0[commandBuffer := before + done]
      modifies drv`recorded
      ensures nextWidth == Shrink(mipWidth) && nextHeight == Shrink(mipHeight)
      ensures drv.recorded == m0[commandBuffer := before + (done + LevelCommands(image, i, mipWidth, mipHeight))]
    {
      var barrier := ImageBarrier(image, LayoutTransferDstOptimal, LayoutTransferSrcOptimal,
                                  ACCESS_TRANSFER_WRITE, ACCESS_TRANSFER_READ, i - 1, 1);
      var toSource := PipelineBarrier(STAGE_TRANSFER, STAGE_TRANSFER, barrier);
      var dstWidth := if mipWidth > 1 then mipWidth / 2 else 1;
      var dstHeight := if mipHeight > 1 then mipHeight / 2 else 1;
      var blit := BlitImage(image, i - 1, Offset2D(mipWidth, mipHeight), i, Offset2D(dstWidth, dstHeight));
      barrier := barrier.(oldLayout := LayoutTransferSrcOptimal, newLayout := LayoutShaderReadOnlyOptimal,
                          srcAccess := ACCESS_TRANSFER_READ, dstAccess := ACCESS_SHADER_READ);
      var toShader := PipelineBarrier(STAGE_TRANSFER, STAGE_FRAGMENT_SHADER, barrier);
      assert [toSource, blit, toShader] == LevelCommands(image, i, mipWidth, mipHeight);
      RecordedSoFar(m0, commandBuffer, before, done, [toSource, blit, toShader]);
      drv.Record(commandBuffer, [toSource, blit, toShader]);
      nextWidth := if mipWidth > 1 then mipWidth / 2 else mipWidth;
      nextHeight := if mipHeight > 1 then mipHeight / 2 else mipHeight;
    }

    /** `beginRenderPass`: the render pass on framebuffer `indexImage` of the swapchain's
        framebuffers, over the whole swapchain extent (the clear values are floating point
        and not modelled). The framebuffer vector is indexed unchecked. */
    method BeginRenderPass(renderPass: Handle, swapchain: Swapchain, framebuffer: Framebuffer, indexImage: nat)
      requires indexImage < |framebuffer.framebuffers|
      modifies drv`recorded
      ensures drv.recorded == old(drv.recorded)[commandBuffer := old(drv.Recorded(commandBuffer)) +
                [Cmd.BeginRenderPass(renderPass, framebuffer.framebuffers[indexImage], swapchain.extent)]]
    {
      drv.Record(commandBuffer, [Cmd.BeginRenderPass(renderPass, framebuffer.framebuffers[indexImage], swapchain.extent)]);
    }

    /** `endRenderPass`. */
    method EndRenderPass()
      modifies drv`recorded
      ensures drv.recorded == old(drv.recorded)[commandBuffer := old(drv.Recorded(commandBuffer)) + [Cmd.EndRenderPass]]
    {
      drv.Record(commandBuffer, [Cmd.EndRenderPass]);
    }

    /** `bindGraphicPipeline`: the pipeline at the graphics bind point. */
    method BindGraphicPipeline(pipeline: Handle)
      modifies drv`recorded
      ensures drv.recorded == old(drv.recorded)[commandBuffer := old(drv.Recorded(commandBuffer)) + [BindPipeline(pipeline)]]
    {
      drv.Record(commandBuffer, [BindPipeline(pipeline)]);
    }

    /** `bindVertexBuffer`: the buffer as vertex binding 0 at offset 0. */
    method BindVertexBuffer(vertexBuffer: Buffer)
      modifies drv`recorded
      ensures drv.recorded == old(drv.recorded)[commandBuffer := old(drv.Recorded(commandBuffer)) +
                [Cmd.BindVertexBuffer(vertexBuffer.buffer)]]
    {
      drv.Record(commandBuffer, [Cmd.BindVertexBuffer(vertexBuffer.buffer)]);
    }

    /** `bindIndexBuffer`: the buffer at offset 0 with the given index type. */
    method BindIndexBuffer(indexBuffer: Buffer, indexType: nat)
      modifies drv`recorded
      ensures drv.recorded == old(drv.recorded)[commandBuffer := old(drv.Recorded(commandBuffer)) +
                [Cmd.BindIndexBuffer(indexBuffer.buffer, indexType)]]
    {
      drv.Record(commandBuffer, [Cmd.BindIndexBuffer(indexBuffer.buffer, indexType)]);
    }

    /** `bindGraphicDescriptorSet`: the set as set 0 of the pipeline layout. */
    method BindGraphicDescriptorSet(pipelineLayout: Handle, descriptorSet: DescriptorSet)
      modifies drv`recorded
      ensures drv.recorded == old(drv.recorded)[commandBuffer := old(drv.Recorded(commandBuffer)) +
                [BindDescriptorSet(pipelineLayout, descriptorSet.descriptorSet)]]
    {
      drv.Record(commandBuffer, [BindDescriptorSet(pipelineLayout, descriptorSet.descriptorSet)]);
    }

    /** `draw`: viewport and scissor over the swapchain extent, then the draw. */
    method Draw(swapchain: Swapchain, vertexCount: uint32, instanceCount: uint32)
      modifies drv`recorded
      ensures drv.recorded == old(drv.recorded)[commandBuffer := old(drv.Recorded(commandBuffer)) +
                [SetViewport(swapchain.extent), SetScissor(swapchain.extent), Cmd.Draw(vertexCount, instanceCount)]]
    {
      var extent := swapchain.extent;
      drv.Record(commandBuffer, [SetViewport(extent), SetScissor(extent), Cmd.Draw(vertexCount, instanceCount)]);
    }

    /** `drawIndexed`: viewport and scissor over the swapchain extent, then one instance of
        an indexed draw. */
    method DrawIndexed(swapchain: Swapchain, indexCount: uint32)
      modifies drv`recorded
      ensures drv.recorded == old(drv.recorded)[commandBuffer := old(drv.Recorded(commandBuffer)) +
                [SetViewport(swapchain.extent), SetScissor(swapchain.extent), Cmd.DrawIndexed(indexCount, 1)]]
    {
      var extent := swapchain.extent;
      drv.Record(commandBuffer, [SetViewport(extent), SetScissor(extent), Cmd.DrawIndexed(indexCount, 1)]);
    }

    /** `QueueSubmit`: one submission of this command buffer on its queue, waiting on the
        wait semaphores at the colour-output stage and signalling the signal semaphores,
        with the fence if one is given and a null fence otherwise; failure throws. */
    method QueueSubmit(waits: seq<Semaphore>, signals: seq<Semaphore>, fence: Option<Fence>)
      returns (o: Outcome, s: Submission)
      modifies drv`log, drv`pending, drv`highWater, drv`accepted
      ensures s.queue == queue.handle && s.commandBuffer == commandBuffer
      ensures |s.waits| == |waits| && forall k :: 0 <= k < |waits| ==> s.waits[k] == waits[k].semaphore
      ensures |s.signals| == |signals| && forall k :: 0 <= k < |signals| ==> s.signals[k] == signals[k].semaphore
      ensures s.waitStage == STAGE_COLOR_ATTACHMENT_OUTPUT && s.fence == FenceHandle(fence)
      ensures o == if old(drv.Upcoming()) == VkSuccess then Pass else Fail(RuntimeError(DrawSubmission))
      ensures drv.pending == if o.Pass? then old(drv.pending) + [s] else old(drv.pending)
      ensures drv.accepted == if o.Pass? then old(drv.accepted) + [s] else old(drv.accepted)
      ensures drv.highWater == if o.Pass? then Max(old(drv.highWater), |drv.pending|) else old(drv.highWater)
      ensures drv.log == old(drv.log) + [Called(VkQueueSubmit(s), old(drv.Upcoming()))]
    {
      var waitHandles := SemaphoreHandles(waits);
      var signalHandles := SemaphoreHandles(signals);
      var f := if fence.Some? then fence.value.fence else Null;
      s := Submission(queue.handle, commandBuffer, waitHandles, STAGE_COLOR_ATTACHMENT_OUTPUT, signalHandles, f);
      var res := drv.Submit(s);
      o := if res == VkSuccess then Pass else Fail(RuntimeError(DrawSubmission));
    }
  }

  /** The `getVkSemaphores` helper of `QueueSubmit`: a vector of the same size, filled
      index by index with each semaphore's handle. */
  method SemaphoreHandles(semaphores: seq<Semaphore>) returns (hs: seq<Handle>)
    ensures |hs| == |semaphores|
    ensures forall k :: 0 <= k < |hs| ==> hs[k] == semaphores[k].semaphore
  {
    hs := seq(|semaphores|, _ => Null);
    var i := 0;
    while i < |semaphores|
      invariant 0 <= i <= |semaphores| == |hs|
      invariant forall k :: 0 <= k < i ==> hs[k] == semaphores[k].semaphore
    {
      hs := hs[i := semaphores[i].semaphore];
      i := i + 1;
    }
  }

  class CommandPool {
    const drv: Driver
    const queue: Queue
    var commandPool: Handle
    var commandBuffers: seq<CommandBuffer>

    ghost predicate Valid()
      reads this, drv
    {
      drv.Valid() && drv.Holds(this, commandPool, TypeCommandPool)
    }

    /** The member initialisers: no command buffers and a null pool. */
    constructor Empty(drv: Driver, queue: Queue)
      ensures this.drv == drv && this.queue == queue && commandPool == Null && commandBuffers == []
    {
      this.drv := drv;
      this.queue := queue;
      commandPool, commandBuffers := Null, [];
    }

    /** `CommandPool(device, queue)`: `vkCreateCommandPool` for the queue's family, with
        individually resettable command buffers; failure throws. */
    static method Create(device: Device, queue: Queue) returns (r: Result<CommandPool>)
      requires device.drv.Valid()
      modifies device.drv`log, device.drv`next, device.drv`live, device.drv`owner
      ensures device.drv.Valid()
      ensures r.Ok? <==> old(device.drv.Upcoming()) == VkSuccess
      ensures r.Err? ==> r.error == RuntimeError(CommandPoolCreation)
      ensures r.Ok? ==> fresh(r.value) && r.value.Valid() && r.value.drv == device.drv && r.value.queue == queue
      ensures r.Ok? ==> r.value.commandBuffers == [] && r.value.commandPool.Native?
      ensures r.Ok? ==> device.drv.live[r.value.commandPool.id] == CommandPoolInfo(COMMAND_POOL_CREATE_RESET_COMMAND_BUFFER, queue.familyIndex)
      ensures device.drv.KeepsAll()
    {
      var p := new CommandPool.Empty(device.drv, queue);
      var res, h := p.drv.Create(CommandPoolInfo(COMMAND_POOL_CREATE_RESET_COMMAND_BUFFER, queue.familyIndex), Some(p));
      p.commandPool := h;
      if res != VkSuccess {
        return Err(RuntimeError(CommandPoolCreation));
      }
      return Ok(p);
    }

    /** `CommandPool(CommandPool&)`: takes the pool, its command buffers and the queue, and
        leaves `other` with a null pool and no command buffers. */
    constructor Copy(other: CommandPool)
      requires other.Valid()
      modifies other, other.drv`owner
      ensures drv == other.drv && queue == other.queue
      ensures commandPool == old(other.commandPool) && commandBuffers == old(other.commandBuffers)
      ensures other.commandPool == Null && other.commandBuffers == []
      ensures Valid() && other.Valid()
      ensures other.drv.KeepsOthers(other)
    {
      drv := other.drv;
      queue := other.queue;
      commandPool, commandBuffers := other.commandPool, other.commandBuffers;
      new;
      other.commandPool, other.commandBuffers := Null, [];
      if commandPool.Native? {
        drv.Transfer(commandPool.id, this);
      }
    }

    /** `operator=`: returns a new pool built from `other`; `*this` is not touched. */
    method Assign(other: CommandPool) returns (r: CommandPool)
      requires other.Valid()
      modifies other, other.drv`owner
      ensures fresh(r) && r.Valid() && other.Valid()
      ensures r.commandPool == old(other.commandPool) && r.commandBuffers == old(other.commandBuffers)
      ensures other.commandPool == Null && other.commandBuffers == []
      ensures this != other ==> commandPool == old(commandPool) && commandBuffers == old(commandBuffers)
      ensures this != other && old(Valid()) ==> Valid()
      ensures other.drv.KeepsOthers(other)
    {
      r := new CommandPool.Copy(other);
    }

    /** `~CommandPool`: destroys a non-null pool and nulls it; on a null pool it does
        nothing. */
    method Destroy()
      requires Valid()
      modifies this`commandPool, drv`log, drv`live, drv`owner
      ensures Valid() && commandPool == Null && commandBuffers == old(commandBuffers)
      ensures drv.log == old(drv.log) + DestroyEvents(TypeCommandPool, old(commandPool))
      ensures drv.live == Drop(old(drv.live), old(commandPool)) && drv.owner == Drop(old(drv.owner), old(commandPool))
      ensures drv.KeepsOthers(this)
    {
      if commandPool.Native? {
        drv.Destroy(TypeCommandPool, commandPool, this);
        commandPool := Null;
      }
    }

    /** `allocateCommandBuffer`: a new command buffer from this pool on the pool's queue,
        appended to the list and returned; if the allocation throws the list is unchanged. */
    method AllocateCommandBuffer() returns (r: Result<CommandBuffer>)
      requires Valid()
      modifies this`commandBuffers, drv`log, drv`next, drv`live, drv`owner
      ensures Valid() && drv.owner == old(drv.owner)
      ensures r.Ok? <==> old(drv.Upcoming()) == VkSuccess
      ensures r.Err? ==> r.error == RuntimeError(CommandBufferAllocation) && commandBuffers == old(commandBuffers)
      ensures r.Ok? ==> fresh(r.value) && r.value.queue == queue && r.value.drv == drv
      ensures r.Ok? ==> commandBuffers == old(commandBuffers) + [r.value] && commandBuffers[|commandBuffers| - 1] == r.value
      ensures r.Ok? ==> r.value.commandBuffer.Native? && r.value.commandBuffer.id in drv.live && drv.live[r.value.commandBuffer.id] == CommandBufferInfo(commandPool)
      ensures |drv.log| == old(|drv.log|) + 1
      ensures drv.KeepsAll()
    {
      r := CommandBuffer.Create(drv, commandPool, queue);
      if r.Ok? {
        commandBuffers := commandBuffers + [r.value];
      }
    }
  }
}
