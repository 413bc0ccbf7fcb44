# basicvk, modelled in Dafny

`basicvk` is a thin C++ wrapper over Vulkan. Each graphics object is a class that owns its handle
or handles:

- the physical and logical device;
- fences and semaphores;
- buffers and textures;
- descriptor set layouts, pools and sets;
- command pools and command buffers;
- the swapchain and its framebuffers.

Every class follows one lifecycle:

- its constructor makes the Vulkan call and throws `std::runtime_error` on failure;
- its destructor releases each non-null handle and nulls it;
- its "copy" constructor moves the handles out of `other`, leaving it null;
- `operator=` returns a new object built that way and does not touch `*this`.

The `main.cpp` demo builds everything the frame protocol needs:

- one uniform buffer, descriptor set, command buffer, two semaphores and a signaled fence for each of the
  `MAX_FRAMES_IN_FLIGHT` slots;
- a texture, uploaded through a one-time command buffer with a mip chain;
- the descriptor sets, written with those resources.

It then renders frames in a loop, and waits for the device to go idle at the end. Each frame:

- waits on the slot's fence and resets it;
- acquires an image;
- records the render pass;
- submits the command buffer and presents the image.

The project has one module per source file:

| module | file | source |
|---|---|---|
| `Vk` | `vk.dfy` | the Vulkan vocabulary |
| `PhysicalDevices` | `physical_device.dfy` | `PhysicalDevice.cpp` |
| `Devices` | `device.dfy` | `Device.cpp` |
| `Synchronous` | `synchronous.dfy` | `Synchronous.cpp` |
| `Buffers` | `buffer.dfy` | `Buffer.cpp` |
| `Descriptors` | `descriptor.dfy` | `Descriptor.cpp` |
| `Commands` | `command.dfy` | `Command.cpp` |
| `Swapchains` | `swapchain.dfy` | `Swapchain.cpp` |
| `Framebuffers` | `framebuffer.dfy` | `Framebuffer.cpp` |
| `App` | `app.dfy` | `main.cpp` |

The Vulkan driver itself is `Gpu.Driver` in `gpu.dfy`, a model of the API rather than of this
repository. It keeps:

- `log`, every call in order with its result;
- `outcome`, a result oracle indexed by the log position, so the `VkResult` of each call is an
  input;
- `live`, every live object with the create-info that made it;
- `owner`, a ghost ledger of which wrapper owns each object;
- the fences that are signaled;
- `pending`, the outstanding queue submissions;
- `accepted`, a ghost record of every submission the driver accepted, in order;
- `highWater`, a ghost count of the most submissions ever outstanding at once;
- `failedWaits`, a ghost count of the fence waits that did not succeed;
- the commands recorded in each command buffer;
- the contents of host-visible memory.

Wrapper objects map to Dafny as follows:

- a wrapper object is a Dafny `class` whose fields are the C++ members;
- a throwing constructor is a static `Create` method that returns `Result<W>`;
- an exception is `Err(RuntimeError(f))` for failures, and `Message(f)` gives the exact text thrown;
- the moving copy constructor is `constructor Copy`;
- `operator=` is `Assign`;
- the destructor is `Destroy`.

Destroying a handle through the driver requires that the handle is live, of the right type and
owned by the wrapper that destroys it. So "no double destroy" and "no destroy of a handle
another wrapper holds" are proof obligations of every destructor and of every move.

The surface queries, the window's framebuffer size and the GPU's memory properties are parameters.
So are the render pass, pipeline and geometry that the graphics pipeline would supply.

## Model

| member | source | states |
|---|---|---|
| PhysicalDevices.SelectQueueFamilies | sources/PhysicalDevice.cpp:23-37 | as written: with a window, each reported family has the property asked for and is the last such family; a graphics family is reported iff some family has graphics; without a window nothing is reported as present and the graphics family is always 0 |
| PhysicalDevices.NoWindowPicksFamilyWithoutGraphics | sources/PhysicalDevice.cpp:23-37 | a concrete input without a window: family 0 lacks graphics, family 1 has it, and the loop reports family 0 |
| PhysicalDevices.SelectQueueFamiliesIntended | sources/PhysicalDevice.cpp:23-37 | with the counter advanced on every family, the reported graphics family has graphics with or without a window, and a family is reported iff one exists |
| PhysicalDevices.FindMemoryType | sources/PhysicalDevice.cpp:57-68 | the result is the least memory type allowed by the filter that has every requested flag; the error is thrown exactly when there is none |
| PhysicalDevices.FindSupportedFormat | sources/PhysicalDevice.cpp:69-83 | the result is the first candidate whose features for the tiling include those asked for; the error is thrown only when no candidate qualifies |
| PhysicalDevices.FindDepthFormat | sources/PhysicalDevice.cpp:84-91 | the first of D32_SFLOAT, D32_SFLOAT_S8_UINT and D24_UNORM_S8_UINT with optimal-tiling depth/stencil support, otherwise the format error |
| PhysicalDevices.CreatePhysicalDevice | sources/PhysicalDevice.cpp:4-45 | succeeds iff there is a GPU whose first entry has a graphics family and, with a window, a present family; the device is then the first GPU with the indices the selection loop picks as written; otherwise exactly the no-GPU, no-graphics-queue or no-present-queue error, in the order the source checks them |
| PhysicalDevices.SelectedAsWrittenUnique | sources/PhysicalDevice.cpp:23-37 | the loop's result as written is unique: two selections of the same families agree |
| Devices.DefaultQueue | sources/Device.cpp:115-118 | `Queue()` is the null queue, and its family index is `-1` stored as `0xFFFFFFFF` |
| Devices.FamilyQueue | sources/Device.cpp:83-110 | a set family gives queue 0 of that family; a missing one gives the default queue |
| Devices.UniqueQueueFamilies | sources/Device.cpp:16-22 | exactly the families that are set, at most two, and one when graphics and present coincide |
| Devices.QueueCreateInfos | sources/Device.cpp:25-32 | one entry per family of the set, each asking for one queue, in strictly increasing family order, covering the set exactly |
| Devices.Device.Create | sources/Device.cpp:7-51 | succeeds iff `vkCreateDevice` does; the device's queue-create entries are exactly one per distinct selected family; no other object is touched |
| Devices.Device.Copy | sources/Device.cpp:59-63 | the new device takes the handle and the physical device, and `other` is left null; ownership moves with the handle |
| Devices.Device.Assign | sources/Device.cpp:64-67 | returns a new device with `other`'s handle, leaves `other` null and does not touch `*this` |
| Devices.Device.Destroy | sources/Device.cpp:52-58 | destroys the device once if it is non-null and nulls it: exactly that handle leaves the live objects and the ownership ledger; a null device logs nothing, so a second run is a no-op |
| Devices.Device.WaitIdle | sources/Device.cpp:68-73 | throws iff `vkDeviceWaitIdle` fails; on success nothing is outstanding and every fence of a completed submission is signaled |
| Devices.Device.WaitForFences | sources/Device.cpp:74-78 | one `vkWaitForFences` call whose result is dropped; it is the timeout when the fence is neither signaled nor carried by an outstanding submission; on success every submission up to the first one carrying it completes and their fences are signaled |
| Devices.Device.GraphicQueue | sources/Device.cpp:83-96 | queue 0 of the graphics family, or the null queue with index `0xFFFFFFFF` when the family is missing |
| Devices.Device.PresentQueue | sources/Device.cpp:97-110 | queue 0 of the present family, or the null queue with index `0xFFFFFFFF` when the family is missing |
| Devices.QueueFamilyIsCreated | sources/Device.cpp:16-32 | any non-null queue the device hands out belongs to a family the device was created with |
| Synchronous.Fence.Create | sources/Synchronous.cpp:4-14 | succeeds iff `vkCreateFence` does, with a new fence made from the options; the fence starts signaled exactly when the signaled flag is set |
| Synchronous.Fence.Copy | sources/Synchronous.cpp:15-24 | takes the handle and leaves `other` null; ownership moves with it |
| Synchronous.Fence.Assign | sources/Synchronous.cpp:25-32 | returns a new fence with `other`'s handle, leaves `other` null and does not touch `*this` |
| Synchronous.Fence.Destroy | sources/Synchronous.cpp:33-39 | destroys a non-null fence once and nulls it; a null fence is left alone |
| Synchronous.Fence.Wait | sources/Synchronous.cpp:44-49 | logs one `vkWaitForFences` with the result the driver gives for this fence; succeeds iff that result is success, and otherwise throws the wait error and counts a failed wait; the outstanding submissions and signaled fences become exactly what that wait leaves, and on success this fence is signaled |
| Synchronous.Fence.Reset | sources/Synchronous.cpp:51-56 | throws iff `vkResetFences` fails; on success the fence is no longer signaled and no other fence changes |
| Synchronous.SignaledAfterWait | sources/Synchronous.cpp:44-49 | a fence that is signaled, or carried by an outstanding submission, is signaled once the timeline up to its first submission completes |
| Synchronous.Semaphore.Create | sources/Synchronous.cpp:59-68 | succeeds iff `vkCreateSemaphore` does, with a semaphore that was not live before |
| Synchronous.Semaphore.Copy | sources/Synchronous.cpp:76-85 | takes the handle and leaves `other` null |
| Synchronous.Semaphore.Assign | sources/Synchronous.cpp:86-93 | returns a new semaphore with `other`'s handle, leaves `other` null and does not touch `*this` |
| Synchronous.Semaphore.Destroy | sources/Synchronous.cpp:69-75 | destroys a non-null semaphore once and nulls it; a null one is left alone |
| Buffers.Buffer.Create | sources/Buffer.cpp:5-44 | succeeds iff `vkCreateBuffer` succeeds, a memory type allowed by the requirements is host-visible and coherent, and the allocation and the bind succeed; a failure is the buffer, memory-type, allocation or bind error of the first step that fails; on success: a buffer of `size` bytes with the option usage, memory of the required size from the first suitable type, and the log is exactly the buffer, the memory and the bind |
| Buffers.Buffer.CreateHandle | sources/Buffer.cpp:9-18 | succeeds iff `vkCreateBuffer` does, with a buffer of the object's size, usage and sharing mode |
| Buffers.Buffer.AllocateMemory | sources/Buffer.cpp:20-43 | fails with the memory-type error iff no type is suitable, otherwise with the allocation error iff `vkAllocateMemory` fails, otherwise with the bind error iff `vkBindBufferMemory` fails; on success the new memory has the required size and the least suitable type, and the log is the allocation then the bind |
| Buffers.Buffer.Copy | sources/Buffer.cpp:76-91 | takes both handles and the size and leaves `other` with null handles and size 0 |
| Buffers.Buffer.Assign | sources/Buffer.cpp:92-99 | returns a new buffer built from `other`, which is left empty; `*this` is not touched |
| Buffers.Buffer.Destroy | sources/Buffer.cpp:45-55 | destroys the buffer, then frees the memory, each only if non-null, and nulls both; exactly those objects stop being live |
| Buffers.Buffer.MapMemory | sources/Buffer.cpp:64-75 | throws iff the map fails; on success the first `size` bytes of the memory are the first `size` bytes of `data`, the rest of that memory is unchanged and so is every other memory |
| Buffers.Texture.Create | sources/Buffer.cpp:106-181 | succeeds iff `vkCreateImage` succeeds, a memory type allowed by the requirements has the option properties, and the allocation, view and sampler calls succeed, the bind's result being ignored; a failure is the error of the first step that fails; on success: a single-level 2D image of the option size and format, bound memory of a suitable type, an sRGB view of that image and a sampler, and the texture keeps the option format and layout and the given level count |
| Buffers.Texture.CreateBackedImage | sources/Buffer.cpp:110-141 | the image, then memory for it: fails with the image error iff `vkCreateImage` fails, then with the memory-type or allocation error of the first step that fails; on success three calls are logged and both exist with the sizes and types required |
| Buffers.Texture.CreateViewAndSampler | sources/Buffer.cpp:143-180 | fails with the view error iff `vkCreateImageView` fails, otherwise with the sampler error iff `vkCreateSampler` fails; on success an sRGB view of the image and a sampler |
| Buffers.Texture.CreateImage | sources/Buffer.cpp:110-127 | succeeds iff `vkCreateImage` does, with a 2D image of one level with the option extent, format, tiling and usage |
| Buffers.Texture.AllocateMemory | sources/Buffer.cpp:129-141 | fails with the memory-type error iff no type is suitable, otherwise with the allocation error iff `vkAllocateMemory` fails; on success memory of the required size and least suitable type, then the bind, logged with whatever result it returned |
| Buffers.Texture.CreateView | sources/Buffer.cpp:143-156 | succeeds iff `vkCreateImageView` does, with an R8G8B8A8_SRGB view of the image |
| Buffers.Texture.CreateSampler | sources/Buffer.cpp:158-180 | succeeds iff `vkCreateSampler` does |
| Buffers.Texture.Copy | sources/Buffer.cpp:201-211 | takes the four handles and the size; `other` is left with null handles and a 0 by 0 size |
| Buffers.Texture.Assign | sources/Buffer.cpp:212-230 | returns a new texture built from `other`, which is left empty; `*this` is not touched |
| Buffers.Texture.Destroy | sources/Buffer.cpp:182-200 | releases image, memory, view and sampler in that order, each only if non-null, and nulls each; exactly those objects stop being live |
| Buffers.Texture.ReleaseImage | sources/Buffer.cpp:184-191 | destroys the image and frees its memory, each only if non-null |
| Buffers.Texture.ReleaseView | sources/Buffer.cpp:192-199 | destroys the view and the sampler, each only if non-null |
| Descriptors.LayoutBindings | sources/Descriptor.cpp:147-157 | one binding per create-info entry, at the same index, with that entry's binding, type, count and stages |
| Descriptors.DescriptorSetLayout.Create | sources/Descriptor.cpp:144-167 | succeeds iff `vkCreateDescriptorSetLayout` does, with a new layout whose bindings are those of the entries |
| Descriptors.DescriptorSetLayout.Copy | sources/Descriptor.cpp:175-179 | takes the handle and leaves `other` null |
| Descriptors.DescriptorSetLayout.Assign | sources/Descriptor.cpp:180-183 | returns a new layout built from `other`; `*this` is not touched |
| Descriptors.DescriptorSetLayout.Destroy | sources/Descriptor.cpp:168-174 | destroys a non-null layout once and nulls it: exactly that handle leaves the live objects and the ownership ledger |
| Descriptors.WritesShape | sources/Descriptor.cpp:93-142 | for any input, the write list has one write per buffer entry and then one per texture entry; each aims at this set with one descriptor; a buffer write has offset 0 with the entry's type, range and binding; a texture write is a combined image sampler in the shader-read-only layout, whatever layout the entry carries |
| Descriptors.DescriptorSet.Create | sources/Descriptor.cpp:62-75 | succeeds iff `vkAllocateDescriptorSets` does, with one set from the given pool and layout; no wrapper owns it |
| Descriptors.DescriptorSet.Copy | sources/Descriptor.cpp:77-81 | takes the handle and nulls `other`'s; the copy has no device |
| Descriptors.DescriptorSet.Assign | sources/Descriptor.cpp:83-86 | returns a new set with `other`'s handle and no device; `*this` is not touched |
| Descriptors.DescriptorSet.WriteList | sources/Descriptor.cpp:95-136 | the two loops build `Writes`: as many writes as entries, each aimed at this set with a count of 1 |
| Descriptors.DescriptorSet.UpdateDescriptorSet | sources/Descriptor.cpp:93-142 | one `vkUpdateDescriptorSets` call with that write list; it requires a set that has a device |
| Descriptors.DescriptorPool.Create | sources/Descriptor.cpp:5-17 | succeeds iff `vkCreateDescriptorPool` does, with a new pool of the maximum set count and pool sizes, and no sets |
| Descriptors.DescriptorPool.Copy | sources/Descriptor.cpp:25-30 | takes the pool and the set list and leaves `other` with a null pool and no sets |
| Descriptors.DescriptorPool.Assign | sources/Descriptor.cpp:31-34 | returns a new pool built from `other`; `*this` is not touched |
| Descriptors.DescriptorPool.Destroy | sources/Descriptor.cpp:18-24 | destroys a non-null pool once and nulls it: exactly that handle leaves the live objects and the ownership ledger |
| Descriptors.DescriptorPool.AllocateDescriptorSet | sources/Descriptor.cpp:36-44 | on success a new set from this pool with the layout is appended to the list and returned; on failure the list is unchanged |
| Descriptors.DescriptorPool.GetVkDescriptorSets | sources/Descriptor.cpp:51-60 | as written: twice as many entries as sets; nulls first, then each set's handle in order |
| Descriptors.DescriptorPool.GetVkDescriptorSetsIntended | sources/Descriptor.cpp:51-60 | as intended: exactly the handle of each set, in order |
| Commands.TransitionFor | sources/Command.cpp:132-180 | succeeds exactly on the two supported layout pairs; any other pair is the invalid-argument error |
| Commands.UploadTransitions | sources/Command.cpp:151-164 | undefined to copy destination waits on nothing and makes the transfer write available; copy destination to shader reading waits for exactly that access and stage |
| Commands.TransitionsOnlyFromUploadLayouts | sources/Command.cpp:151-167 | from any layout other than undefined or copy destination, every transition is rejected |
| Commands.CopySize | sources/Command.cpp:97-105 | the smaller of the two buffer sizes |
| Commands.Half | sources/Command.cpp:219 | the size a blit writes: half the size while above 1, otherwise 1; never below 1 |
| Commands.Shrink | sources/Command.cpp:242-243 | the tracked size is halved while above 1 and otherwise kept |
| Commands.MipLoopLength | sources/Command.cpp:198-244 | rounds `i` to `n - 1` record three commands each |
| Commands.MipLoopAt | sources/Command.cpp:198-244 | round `j` records the three level commands of level `j` on the size tracked after `j - i` rounds |
| Commands.ShrunkPositive | sources/Command.cpp:242-243 | a tracked size that starts at 1 or more stays at 1 or more |
| Commands.MipCommandsShape | sources/Command.cpp:181-259 | for `n >= 1` levels: `3(n-1) + 1` commands; round `j` occupies commands `3(j-1)` to `3j-1`; the last is the barrier on level `n - 1` |
| Commands.MipCommandsOfNoLevels | sources/Command.cpp:196-256 | with zero levels the loop does not run, and the final barrier names level `0xFFFFFFFF` |
| Commands.MipBlits | sources/Command.cpp:198-244 | round `j` blits level `j - 1` into level `j`; for a texture of at least 1 x 1, the sizes read are never below 1 and each round writes exactly what the next round reads |
| Commands.CommandBuffer.Create | sources/Command.cpp:45-57 | succeeds iff `vkAllocateCommandBuffers` does, with one primary buffer from the pool on the given queue |
| Commands.CommandBuffer.Copy | sources/Command.cpp:58-62 | takes the handle and nulls `other`'s; the copy's queue is the null `Queue()` |
| Commands.CommandBuffer.Assign | sources/Command.cpp:63-66 | returns a new command buffer built that way; `*this` is not touched |
| Commands.CommandBuffer.Begin | sources/Command.cpp:74-84 | throws iff `vkBeginCommandBuffer` fails; on success the buffer's recording starts empty |
| Commands.CommandBuffer.End | sources/Command.cpp:85-90 | throws iff `vkEndCommandBuffer` fails |
| Commands.CommandBuffer.Reset | sources/Command.cpp:91-96 | throws iff `vkResetCommandBuffer` fails; on success the recording is emptied |
| Commands.CommandBuffer.CopyBuffer | sources/Command.cpp:97-105 | appends one copy of the smaller size at offset 0 in both buffers |
| Commands.CommandBuffer.CopyBufferToTexture | sources/Command.cpp:106-131 | appends one copy of the whole buffer into level 0 of the image, which is in the copy-destination layout, over the texture's size |
| Commands.CommandBuffer.TransitionImageLayout | sources/Command.cpp:132-180 | an unsupported pair throws with nothing recorded; otherwise one barrier over all mip levels with the selected masks and stages, and the texture records the new layout |
| Commands.CommandBuffer.GenerateMipMap | sources/Command.cpp:181-259 | appends exactly the mip chain for the texture's size and level count, and the texture records the shader-readable layout |
| Commands.CommandBuffer.RecordLevel | sources/Command.cpp:198-244 | one round: the barrier, the blit and the barrier, appended in that order; the tracked size is shrunk |
| Commands.CommandBuffer.BeginRenderPass | sources/Command.cpp:260-276 | appends the render pass on framebuffer `indexImage` over the whole swapchain extent |
| Commands.CommandBuffer.EndRenderPass | sources/Command.cpp:277-280 | appends the end of the render pass |
| Commands.CommandBuffer.BindGraphicPipeline | sources/Command.cpp:281-284 | appends a bind of the pipeline at the graphics bind point |
| Commands.CommandBuffer.BindVertexBuffer | sources/Command.cpp:285-290 | appends a bind of the buffer as vertex binding 0 at offset 0 |
| Commands.CommandBuffer.BindIndexBuffer | sources/Command.cpp:291-294 | appends a bind of the buffer at offset 0 with the index type |
| Commands.CommandBuffer.BindGraphicDescriptorSet | sources/Command.cpp:295-299 | appends a bind of the set as set 0 of the layout |
| Commands.CommandBuffer.Draw | sources/Command.cpp:300-318 | appends viewport and scissor over the swapchain extent, then the draw |
| Commands.CommandBuffer.DrawIndexed | sources/Command.cpp:319-337 | appends viewport and scissor over the swapchain extent, then one instance of the indexed draw |
| Commands.CommandBuffer.QueueSubmit | sources/Command.cpp:338-366 | the submission carries this buffer on its queue, the wait semaphores at the colour-output stage, the signal semaphores in order and the fence or null; it throws iff the submit fails, and on success it is the one new outstanding submission |
| Commands.SemaphoreHandles | sources/Command.cpp:340-347 | a vector of the same size filled with each semaphore's handle at its own index |
| Commands.CommandPool.Create | sources/Command.cpp:4-16 | succeeds iff `vkCreateCommandPool` does, with a pool for the queue's family with resettable buffers and no command buffers |
| Commands.CommandPool.Copy | sources/Command.cpp:24-29 | takes the pool, its buffers and queue, and leaves `other` with a null pool and no command buffers |
| Commands.CommandPool.Assign | sources/Command.cpp:30-33 | returns a new pool built from `other`; `*this` is not touched |
| Commands.CommandPool.Destroy | sources/Command.cpp:17-23 | destroys a non-null pool once and nulls it |
| Commands.CommandPool.AllocateCommandBuffer | sources/Command.cpp:34-40 | on success a new buffer from this pool on the pool's queue is appended and returned; on failure the list is unchanged |
| Swapchains.FirstPreferred | sources/Swapchain.cpp:186-190 | the position of the first preferred format from `from` on, or the length when there is none |
| Swapchains.ChooseSwapSurfaceFormat | sources/Swapchain.cpp:184-193 | the result is one of the formats; it is preferred iff some format is, and then it is the first preferred one; otherwise it is the first format |
| Swapchains.Clamp | sources/Swapchain.cpp:208-209 | within `[lo, hi]` when that range is non-empty; `v` itself when `v` is inside it; always one of `v`, `lo` and `hi` |
| Swapchains.ChooseSwapExtent | sources/Swapchain.cpp:194-213 | the current extent unless its width is `0xFFFFFFFF`; then the framebuffer size cast to `uint32_t` and clamped into the supported range per dimension |
| Swapchains.ImageCount | sources/Swapchain.cpp:17-20 | one more than the minimum, wrapping in `uint32_t`; never above a non-zero maximum; equal to that maximum when the minimum reaches it |
| Swapchains.QueueIndexList | sources/Swapchain.cpp:22-28 | the graphics family first and the present family last, each only if set; the list has exactly the set families |
| Swapchains.ImageCountBounds | sources/Swapchain.cpp:17-20 | at least one image unless the minimum is `0xFFFFFFFF`, when without a maximum the request wraps to 0 |
| Swapchains.Swapchain.Create | sources/Swapchain.cpp:7-79 | succeeds iff `vkCreateSwapchainKHR`, the second `vkGetSwapchainImagesKHR` and every view creation succeed; a failure is the swapchain, images or view error of the first step that fails; on success: the chosen format and extent, a swapchain with the computed create info, as many images as the driver reports and view `k` of image `k` |
| Swapchains.Swapchain.CreateHandle | sources/Swapchain.cpp:30-50 | succeeds iff `vkCreateSwapchainKHR` does, with a swapchain made from the given create info |
| Swapchains.Swapchain.CreateImagesAndViews | sources/Swapchain.cpp:52-78 | fails with the images error iff the second image query fails, otherwise with the view error iff some view creation fails; on success as many images as the driver reports and view `k` of image `k` |
| Swapchains.Swapchain.CreateImages | sources/Swapchain.cpp:52-56 | two `vkGetSwapchainImagesKHR` calls; fails iff the second does; on success as many images as the driver reports |
| Swapchains.Swapchain.CreateViews | sources/Swapchain.cpp:58-78 | succeeds iff each of the one-per-image `vkCreateImageView` calls succeeds, and otherwise throws the view error; on success view `k` of image `k` in the swapchain's format |
| Swapchains.Swapchain.Copy | sources/Swapchain.cpp:94-102 | takes the swapchain, images and views, and leaves `other` with a null swapchain and no images or views |
| Swapchains.Swapchain.Assign | sources/Swapchain.cpp:103-106 | returns a new swapchain built from `other`; `*this` is not touched |
| Swapchains.Swapchain.Destroy | sources/Swapchain.cpp:80-93 | destroys a non-null swapchain, then each non-null view, nulling each; the view list keeps its length |
| Swapchains.Swapchain.AcquireNextImage | sources/Swapchain.cpp:108-122 | one acquire with the semaphore and fence handles, or null ones, logged with its result on both paths: the out-of-date error when the swapchain has no image, otherwise the driver's; succeeds iff that result is success, with an index below the image count |
| Swapchains.Swapchain.PresentSwapchain | sources/Swapchain.cpp:124-145 | one present of the image on the queue, waiting on the semaphore if given and on nothing otherwise; throws iff it fails |
| Framebuffers.FramebufferInfoFor | sources/Framebuffer.cpp:13-25 | the render pass, the view and the depth view as the two attachments, the swapchain extent and one layer |
| Framebuffers.Framebuffer.Create | sources/Framebuffer.cpp:4-31 | succeeds iff each of the one-per-view `vkCreateFramebuffer` calls succeeds, and otherwise throws the framebuffer error; on success one call per view is logged and framebuffer `k` is made for view `k` |
| Framebuffers.Framebuffer.Copy | sources/Framebuffer.cpp:42-46 | takes the list and leaves `other` with an empty one |
| Framebuffers.Framebuffer.Assign | sources/Framebuffer.cpp:47-50 | returns a new framebuffer set built from `other`; `*this` is not touched |
| Framebuffers.Framebuffer.Destroy | sources/Framebuffer.cpp:32-41 | destroys each non-null framebuffer once and nulls it; the list keeps its length |
| Vk.DestroyAllEventsExactly | sources/Swapchain.cpp:87-92 | a destructor loop over a handle list destroys only handles of that list, and destroys every non-null one |
| Vk.DestroyAllEventsInOrder | sources/Swapchain.cpp:87-92 | the destructor loop logs one destroy per non-null handle of the list, exactly in list order |
| Vk.NativeIdsMembers | sources/Swapchain.cpp:87-92 | an id is among the destroyed ids iff its handle is in the list, and no id appears twice when no handle does |
| Vk.DestroyAllEventsOfNulls | sources/Framebuffer.cpp:32-41 | over a list of nulls the destructor loop logs nothing, so a second destruction is a no-op |
| App.WaitKeepsInFlight | sources/main.cpp:252 | under the fence invariant, a wait on a slot's fence returns, keeps the invariant and leaves the fence signaled |
| App.WaitOutcome | sources/main.cpp:252 | a wait only drops a prefix of the outstanding submissions; under the invariant it returns the driver's answer, and when it succeeds the invariant holds again with the slot's fence signaled |
| App.ResetFreesSlot | sources/main.cpp:253 | resetting a slot fence that the wait signaled frees the slot: nothing outstanding carries it |
| App.SubmitKeepsInFlight | sources/main.cpp:271 | a submission on a free slot with that slot's fence restores the invariant |
| App.InFlightBound | sources/main.cpp:243-276 | under the invariant, no more submissions are outstanding than there are slots |
| App.AsWrittenSignalIsTheWait | sources/main.cpp:249-250 | as written, the frame's submission signals the same semaphore it waits on, and no render-finished semaphore appears |
| App.IntendedSignalIsNotTheWait | sources/main.cpp:249-250 | as intended, a slot with two distinct semaphores signals one other than the one it waits on |
| App.RenderFinishedUnused | sources/main.cpp:249-250 | as written, no submission of the loop waits on or signals a render-finished semaphore |
| App.FrameCommandsOrder | sources/main.cpp:262-268 | the render pass starts before anything is bound; pipeline, geometry and set are bound before the single draw over the whole extent; the render pass ends last |
| App.RecordDraw | sources/main.cpp:262-268 | appends exactly the frame's nine commands for framebuffer `imageIndex` to what the buffer holds |
| App.RecordFrame | sources/main.cpp:258-269 | fails with the reset, begin or end error of the first of those calls that fails; on success exactly those three calls are logged and the buffer holds exactly the frame's commands |
| App.ThrottleFrame | sources/main.cpp:252-253 | waits on the slot's fence, ignoring the result, then resets it: exactly those two calls are logged, and it fails iff the reset does; a failed wait is counted; the outstanding submissions only lose a prefix; under the fence invariant the wait returns the driver's answer, and when it succeeds the slot is free |
| App.ThrottleFrees | sources/main.cpp:252-253 | the wait only drops a prefix of the outstanding submissions; under the fence invariant its result is the driver's answer, and a successful wait and reset leave nothing outstanding that carries the slot's fence |
| App.RenderFrame | sources/main.cpp:247-273 | one frame in slot `f`: fails with the error of the first failing call among fence reset, acquire, buffer reset, begin, end, submit and present; on success the log is exactly the frame's calls, and the one new outstanding and accepted submission is the slot's buffer waiting on its image-available semaphore; as written it signals that same semaphore and the fence, and the present waits on it too; under the fence invariant and a successful wait, the most submissions ever outstanding rises to no more than `MAX_FRAMES_IN_FLIGHT` and the invariant holds again |
| App.FrameOutcomePasses | sources/main.cpp:247-273 | a frame succeeds iff the swapchain has an image and all seven calls after the fence wait succeed |
| App.SubmitLedger | sources/main.cpp:271 | a submission from a free slot keeps what remained outstanding and adds itself last; the number outstanding never exceeds the number of slots, and the fence invariant holds again |
| App.SubmitFrame | sources/main.cpp:255-273 | after the throttle: acquire, record, submit and present, failing with the error of the first step that fails; on success exactly those six calls are logged; the submission is accepted and outstanding iff the submit succeeded |
| App.AcquireAndRecord | sources/main.cpp:255-269 | fails with the acquire error when there is no image or the acquire fails, otherwise with the reset, begin or end error; on success exactly the acquire, signalling the slot's image-available semaphore, and the three recording calls are logged, and the buffer holds the frame for the acquired image |
| App.RenderedAppend | sources/main.cpp:247-275 | a frame submitted from the slot its number selects extends the loop's record |
| App.StepKeeps | sources/main.cpp:244-275 | one frame keeps the loop's ledger: the accepted submissions are those rendered so far, and if the fence invariant held when the loop began and every wait succeeded, the outstanding count stays within `MAX_FRAMES_IN_FLIGHT` and the invariant holds |
| App.RenderStep | sources/main.cpp:244-275 | one round of the loop: a failure is this frame's error and is the loop's outcome; on success the loop's outcome is that of the remaining frames from the new log position, and the loop state holds one frame later with the slot advanced modulo `MAX_FRAMES_IN_FLIGHT` |
| App.LoopOutcomeStep | sources/main.cpp:244-277 | the loop's outcome is the first frame's failure, or else the outcome of the remaining frames eight calls later |
| App.RenderLoop | sources/main.cpp:243-278 | returns exactly what the driver's results determine: the error of the first failing frame, then the device-wait error, otherwise success; the driver accepts exactly the frames rendered, frame `n` from slot `n % MAX_FRAMES_IN_FLIGHT`, and all `frames` of them on success; from any state; when it starts under the fence invariant and every fence wait succeeds, no more than `MAX_FRAMES_IN_FLIGHT` submissions are ever outstanding; on success nothing is outstanding after the final device wait |
| App.RenderFrames | sources/main.cpp:244-276 | the frames before the device wait, from any state: the accepted submissions are those rendered, from the slot each frame number selects; a failure is the loop's outcome, and on success all frames were rendered and only the device wait decides the outcome; when it starts under the fence invariant and no wait fails, the outstanding bound holds |
| App.UploadCommandsShape | sources/main.cpp:207-211 | the upload takes every mip level from undefined to shader-read: the first barrier covers all levels from 0, the copy writes level 0 in the layout it leaves, and the mip chain ends with the last level handed to the fragment shader |
| App.RecordUpload | sources/main.cpp:207-211 | fails with the begin or end error of the first failing call; on success exactly begin and end are logged, the buffer holds exactly the transition, the copy and the mip chain, and the texture is shader-readable |
| App.RecordUploadCommands | sources/main.cpp:208-210 | between begin and end the buffer receives exactly the upload commands and the texture ends shader-readable |
| App.UploadTexture | sources/main.cpp:205-213 | fails with the allocation, begin, end or submit error of the first step that fails; on success a new buffer from the pool holds the upload and is submitted with no semaphores and no fence, then the queue wait; once that wait succeeds nothing is outstanding |
| App.SubmitUpload | sources/main.cpp:207-213 | on the new buffer: fails with the begin, end or submit error of the first failing step; on success the upload recording, one submission of it with no semaphores and no fence, then the queue wait, are the last calls logged |
| App.SetupUniform | sources/main.cpp:161-166 | succeeds iff the buffer is made and its memory mapped, each failure being the error of the first failing step; on success a host-visible uniform buffer of the object's size holds the object, after five logged calls; no earlier memory changes |
| App.SetupSync | sources/main.cpp:170-174 | fails with the semaphore error iff either semaphore creation fails, otherwise with the fence error iff the fence creation fails; on success two distinct new semaphores and a new fence that starts signaled, and no other fence changes |
| App.AllocateSlotEntries | sources/main.cpp:168-169 | fails with the set-allocation error iff that allocation fails, otherwise with the command-buffer error iff that one fails; on success each pool keeps what it had and gains one entry |
| App.SetupSlot | sources/main.cpp:161-174 | one round of the setup loop: succeeds iff the uniform buffer, the two pool entries and the synchronisation objects are all made, each failure being the error of the first failing step; on success one set and one command buffer are added, a uniform buffer holds the object, and the slot's semaphores differ and its fence is signaled |
| App.SlotOutcomePasses | sources/main.cpp:161-174 | a slot succeeds iff a memory type suits the uniform buffer and the nine checked calls of the round succeed; the unmap's result is not checked |
| App.SetupStep | sources/main.cpp:159-175 | one round appended to what the earlier rounds made: the same success condition and errors as one slot; the earlier uniform buffers keep their contents and the pools keep their entries |
| App.SetupSlots | sources/main.cpp:159-175 | succeeds iff each of the `MAX_FRAMES_IN_FLIGHT` rounds in turn does, the error being that of the first failing round; on success each slot has a uniform buffer holding the object, ready synchronisation objects, one new descriptor set and one new command buffer |
| App.SetupStartsInFlight | sources/main.cpp:159-175 | after setup every fence is signaled with nothing pending, so the loop's invariant holds at its first frame once the upload's queue wait has succeeded (a failed one leaves the fenceless upload outstanding); each slot's two semaphores differ |
| App.SlotUpdateWrites | sources/main.cpp:218-238 | each set gets exactly two writes: the uniform buffer over the object's size at binding 0, and the combined image sampler in shader-read-only layout at binding 1 |
| App.WriteDescriptorSets | sources/main.cpp:218-238 | one `vkUpdateDescriptorSets` per set in order, set `k` with uniform buffer `k` and the texture |

## Left out

- Window, GLFW, `Window.cpp`, `VulkanBasic.cpp` (instance, surface) and `Shader.cpp` are
  not part of this model. The surface queries, framebuffer size and the fact of a window are
  parameters.
- `GraphicPipeline.cpp` is not part of this model. Its render pass, pipeline layout, pipeline and
  depth view are inputs. Its render pass declares one attachment while each framebuffer is made
  with two (`Framebuffer.cpp:13-25`); that mismatch is not modelled.
- Floating point (queue priority, clear values, the uniform matrices, sampler settings) is not
  modelled. The uniform object is a byte sequence of `UBO_SIZE` bytes.
- Texture loading with `stb_image` is not modelled. The staging buffer and its contents are inputs.
- Timeouts are not modelled. Every wait passes `UINT64_MAX`.
- Time, concurrency and the GPU's own execution are abstracted. Submissions complete in order
  when a wait or an idle call says so.
- `Queue::waitIdle` is declared without a definition. Here it is `vkQueueWaitIdle`, and its
  result is returned rather than thrown.
- App.RenderLoop: its bound on outstanding submissions holds only while every fence wait
  succeeds, because `Device::waitForFences` drops the `VkResult` (`Device.cpp:74-78`), and only
  when the loop starts under the fence invariant. A failed `graphicQueue.waitIdle()`
  (`main.cpp:213`) leaves the fenceless upload outstanding, and then the loop's outcome and ledger
  are still stated but the bound is not.
- App.RenderLoop: the loop runs a given number of frames in place of `!window.shouldClose()`.
- Descriptors.DescriptorSet.UpdateDescriptorSet: each write stores a pointer to a loop-local
  `bufferInfo` or `imageInfo` (`Descriptor.cpp:99,112,120,132`). Each resource is recorded by value in its write,
  as if the pointers stayed valid.
- Swapchains.Swapchain.PresentSwapchain: the wait semaphore's handle is a block-local
  `vkSemaphore` whose address is stored in `pWaitSemaphores` (`Swapchain.cpp:128-131`), and
  `vkQueuePresentKHR` (`Swapchain.cpp:141`) runs after that block has ended, so it reads a
  dangling pointer on every frame that passes a semaphore. The present is recorded with the
  semaphore by value, as if the pointer stayed valid.
- Buffers.Texture.Copy: the source leaves `format`, `imageLayout` and `mipLevels` of the copy
  uninitialised. The model carries them over from `other`.
- Buffers.Texture.Create: the header's `format`, `mipLevels` and `imageLayout` are never set by the
  source. Here they are the option format, an argument and the option layout.
- Buffers.Texture.CreateImage: the image is made with one mip level (`Buffer.cpp:116`), while
  `generateMipMap` blits into levels 1 to `mipLevels - 1`. The driver model does not check a
  barrier's or a blit's level against the image's level count, so that mismatch is not flagged.
- Commands.CommandBuffer.QueueSubmit: `waitStages` holds one stage while `waitSemaphoreCount` is
  the number of wait semaphores (`Command.cpp:351-356`). A submission records one stage for all
  its waits, so a submission with two or more waits reading past that array is not modelled;
  the demo only ever passes one or none.
- Commands.CommandBuffer.Copy: the copy's `device_ptr` is not modelled. Only one driver exists.
- The destructor of the moved-from temporary after `push_back` in the setup loop is not
  modelled. Its handles are null by then, so it does nothing.
- A failed constructor does not release what it created before the failure. The model shows
  that too, but does not model stack unwinding of the enclosing objects.
- In-class default member values in the headers are taken from the constructors'
  initialiser lists.
- `getVkX` accessors and `getCommandBuffers` / `getDescriptorSets` are field reads in the model.
- `Texture::getMipLevels` and `Texture::setVkImageLayout` are declared in `includes/Buffer.hpp:62-65` without
  a definition. Here they are a read of the `mipLevels` field and a write of the `imageLayout`
  field, as their names and their uses in `Command.cpp:144,179,196,258` suggest.

## Findings

| source | as written | input that shows it | evidently intended | confidence | as-written member | corrected member |
|---|---|---|---|---|---|---|
| sources/Descriptor.cpp:53-58 | the vector is constructed with `size()` null handles and `emplace_back` then appends each set | a pool with one set: the result is `[null, set]` | the handle of each set, `size()` entries | high, not executed | Descriptors.DescriptorPool.GetVkDescriptorSets | Descriptors.DescriptorPool.GetVkDescriptorSetsIntended |
| sources/main.cpp:250 | `renderFinishedSemaphore` is taken from `imageAvailableSemaphores` | any frame: its submission waits on and signals the same image-available semaphore, and presentation waits on it too | the slot's render-finished semaphore | high, not executed | App.AsWrittenSignalIsTheWait | App.IntendedSignalIsNotTheWait |
| sources/PhysicalDevice.cpp:23-37 | `i++` sits inside `if (pWindow != nullptr)` | no window; family 0 without graphics, family 1 with: graphics family reported as 0 | the counter advances for every family | high, not executed | PhysicalDevices.NoWindowPicksFamilyWithoutGraphics | PhysicalDevices.SelectQueueFamiliesIntended |
