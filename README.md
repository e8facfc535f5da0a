# RearViewCamera capture and render core, in Dafny

RearViewCamera shows live video from a USB analogue capture stick (the
UTV007, Empia, STK1160 and Somagic chipsets) on an Android display. Its native
core has two halves, and this project models both:

- **`VideoDevice`** (module `Capture`, `video_device.dfy`) drives a V4L2 capture
  device. It probes a device node and names the chipset from the driver name.
  It opens the node and checks the device's capabilities. It sets the video
  standard, the crop and the frame format. It asks the driver for a pool of
  memory-mapped buffers and maps them one by one. It queues the buffers and
  starts streaming. It waits for frames with `select` and dequeues them. It
  stops the stream, unmaps the buffers and closes the node.
- **`FrameRenderer`** (module `Rendering`, `frame_renderer.dfy`) turns a
  captured buffer into pixels on an Android native window. It picks a
  strategy once, from the colour format: copy RGB bytes unchanged, or convert
  YUYV/UYVY with a RenderScript kernel. Each frame, it sets the window geometry
  and writes to the window only when the window buffer could be locked.

Every system call (`stat`, `open`, `close`, `ioctl`, `mmap`, `munmap`,
`select`) becomes a parameter that carries the call's outcome. What the device
manager asks of an open descriptor (ioctl, mmap, munmap, the `select` wait and
close) is recorded in order in `VideoDevice.requests`. The `stat` and `open`
of `v4l2_open` are not recorded: their outcome is the descriptor itself.
The contracts describe the device's state and that request trace as functions
of the replies. The other files are:

- `settings.dfy`: the device settings the Java side passes in.
- `v4l2.dfy`: the driver's vocabulary (requests, replies, errno values).
- `wrappers.dfy`: `Option`.
- `pipeline.dfy`: how the two halves agree, or fail to agree, on the pixel
  format. It also holds a few sessions written against the contracts:
  - `Rgb565Setup`, `Rgb565Capture` and `Rgb565Render`: 640x480 RGB565 with
    four buffers, with a frame rendered with and without the window lock.
  - `YuyvRender`: a YUYV frame converted into an RGBA_8888 window.
  - `DoubleStop`: two `stop_device` calls in a row.
  - `CaptureAfterStop`: capture after `stop_device`.
  - `SingleBufferRejected`: a driver that grants one buffer.

The model follows the code where the code is looser than its comments or its
documentation:

- `close_device` leaves `file_descriptor` as it was. `v4l2_close` resets only
  its own copy.
- `detect_device` leaks the descriptor when VIDIOC_QUERYCAP fails.
- A failed VIDIOC_S_STD makes `init_device` fail. It is not best effort.
- A mapping failure in `init_mmap` returns at once. The buffers mapped
  before it stay mapped.
- A `select` failure with an errno other than EINTR is only logged. The loop
  then falls through to `read_frame`.
- `read_frame` reports 1 (a frame is ready) for every dequeue error except
  EAGAIN. The current index is then left unchanged.
- `stop_device` resets neither `buffer_count` nor the pool pointer. A second
  stop (the destructor runs one after an explicit stop) unmaps the same slots
  again, closes the same descriptor again and calls `free` on the already
  freed pool: a double free.
- `errnoexit` is not part of this model. It is taken to return ERROR_LOCAL.
  SUCCESS_LOCAL and ERROR_LOCAL are two distinct results, and ERROR_LOCAL is
  the -1 that `v4l2_open` and `open_device` share.

## Model

| member | source | states |
|---|---|---|
| Capture.V4l2Open | app/src/main/jni/VideoDevice.cpp:418-443 | the result is -1 exactly when stat fails, the node is not a character device, or open fails (EACCES included); otherwise it is the opened descriptor |
| Capture.V4l2Close | app/src/main/jni/VideoDevice.cpp:445-452 | the result is an error exactly when the descriptor is not -1 and close fails; closing -1 succeeds without a call |
| Capture.StrNEqualFromAgrees | app/src/main/jni/VideoDevice.cpp:397-406 | strncmp over positions i to \|lit\| of a C string and a NUL-free literal reports equality exactly when every such position holds the literal's character |
| Capture.StrNEqualIsPrefix | app/src/main/jni/VideoDevice.cpp:397-406 | `strncmp(driver, lit, strlen(lit)) == 0` holds exactly when lit is a prefix of driver |
| Capture.Classify | app/src/main/jni/VideoDevice.cpp:397-406 | the device type is the first of usbtv/em28xx/stk1160/smi2021 that prefixes the driver name, else NO_DEVICE |
| Capture.ClassifyByPrefix | app/src/main/jni/VideoDevice.cpp:397-406 | a supported device type is reported exactly when its own driver prefix starts the name, whatever the order of the tests |
| Capture.DetectDevice | app/src/main/jni/VideoDevice.cpp:376-414 | a device is reported exactly when open, QUERYCAP and close succeed and the driver is recognised, and it is then the classified type; the descriptor is closed exactly when open and QUERYCAP both succeed |
| Capture.StandardFor | app/src/main/jni/VideoDevice.cpp:92-102 | PAL is requested exactly for the PAL selector; NTSC otherwise |
| Capture.PixelFormatFor | app/src/main/jni/VideoDevice.cpp:131-143 | UYVY and RGB565 request themselves; every other colour format, RGBA8888 included, requests YUYV |
| Capture.Configure | app/src/main/jni/VideoDevice.cpp:72-148 | configuration goes on to init_mmap exactly when QUERYCAP succeeds with capture and streaming capabilities and S_STD and S_FMT succeed; crop failures never matter; QUERYCAP is issued first, and when it goes on the standard and the format requested are those of the settings |
| Capture.MappedPrefix | app/src/main/jni/VideoDevice.cpp:187-206 | the count of leading buffers whose query and mmap both succeed: all before it mapped, the one at it not |
| Capture.SlotAfter | app/src/main/jni/VideoDevice.cpp:187-206 | a pool slot is live exactly when it is before the first failure, and a live slot has the driver's length |
| Capture.LeadingDone | app/src/main/jni/VideoDevice.cpp:225-235 | the count of leading successful calls: all before it succeeded, the one at it failed |
| Capture.SweepInOrder | app/src/main/jni/VideoDevice.cpp:225-235 | a pool loop over n buffers addresses each of 0 .. n-1 exactly once, in ascending order |
| Capture.ReadResult | app/src/main/jni/VideoDevice.cpp:299-320 | EAGAIN gives 0; every other dequeue error gives 1; a dequeued buffer gives 1 exactly when re-queueing succeeds, and never 0 |
| Capture.FirstEnd | app/src/main/jni/VideoDevice.cpp:259-283 | the pass at which the capture loop leaves is a timeout or a ready read_frame, and no earlier pass is |
| Capture.IndexAfterInBounds | app/src/main/jni/VideoDevice.cpp:310-314 | when the current index starts inside the pool and the driver only dequeues buffers inside it, the current index stays inside the pool |
| Capture.VideoDevice.constructor | app/src/main/jni/VideoDevice.cpp:18-31 | a new device keeps its settings, holds no descriptor (-1), no pool, no buffers, current index 0 |
| Capture.VideoDevice.OpenDevice | app/src/main/jni/VideoDevice.cpp:45-53 | the descriptor becomes v4l2_open's result and the call fails exactly when that is -1 |
| Capture.VideoDevice.InitDevice | app/src/main/jni/VideoDevice.cpp:64-152 | on a configuration failure no buffers are requested and no pool exists; otherwise the pool is requested with num_buffers, and init_mmap's outcome follows; the whole request trace in order |
| Capture.VideoDevice.InitMmap | app/src/main/jni/VideoDevice.cpp:160-211 | a failed REQBUFS, fewer than two granted buffers or a failed calloc leaves no pool; otherwise a fresh pool of the granted size whose live slots are exactly the mapped prefix with the driver's lengths; success exactly when every buffer mapped |
| Capture.VideoDevice.MapBuffers | app/src/main/jni/VideoDevice.cpp:187-206 | every slot ends as SlotAfter says, buffer_count is the mapped prefix, success exactly when all mapped, and QUERYBUF/mmap were issued slot by slot up to the first failure |
| Capture.VideoDevice.MapSlot | app/src/main/jni/VideoDevice.cpp:188-205 | one slot of the mapping loop: QUERYBUF, then mmap only if it succeeded; the slot records the driver's length once queried and is live exactly when both succeed; no other slot changes |
| Capture.VideoDevice.StartCapture | app/src/main/jni/VideoDevice.cpp:221-243 | buffers are queued 0 .. buffer_count-1 in order up to and including the first failure, which fails the call; otherwise STREAMON follows and decides the result |
| Capture.VideoDevice.ReadFrame | app/src/main/jni/VideoDevice.cpp:293-321 | returns ReadResult of the replies; a dequeued buffer becomes current and is re-queued; a failed dequeue leaves the current index alone |
| Capture.VideoDevice.ProcessCapture | app/src/main/jni/VideoDevice.cpp:253-286 | without a descriptor: no frame and nothing issued; otherwise the passes up to the first ending one are issued, a timeout gives no frame and a ready read gives the current slot, which lies inside the pool whenever the index started there |
| Capture.VideoDevice.PollPass | app/src/main/jni/VideoDevice.cpp:260-282 | one pass of the capture loop issues a wait, then read_frame's requests exactly when select is readable or fails with other than EINTR; it leaves the loop exactly on a timeout or a ready read_frame |
| Capture.VideoDevice.StopCapture | app/src/main/jni/VideoDevice.cpp:335-342 | STREAMOFF is issued exactly when a descriptor is held; the call fails exactly when that STREAMOFF fails |
| Capture.VideoDevice.UninitDevice | app/src/main/jni/VideoDevice.cpp:348-357 | slots 0 .. buffer_count-1 are unmapped in order up to the first failure; only that prefix loses its mapping; the pool is freed and the call succeeds exactly when all succeed |
| Capture.VideoDevice.CloseDevice | app/src/main/jni/VideoDevice.cpp:367-370 | close is issued for a held descriptor, the result is v4l2_close's, and file_descriptor is left unchanged |
| Capture.VideoDevice.StopDevice | app/src/main/jni/VideoDevice.cpp:324-329 | STREAMOFF, the unmapping sweep and close are issued in that order, each regardless of the earlier results; the pool is freed exactly when every unmap succeeds; exactly the slots before the first failed unmap lose their mapping and the others are unchanged |
| Rendering.Select | app/src/main/jni/FrameRenderer.cpp:15-43 | the buffer length is width x height x 4 for RGBA8888 and x 2 otherwise; the window is RGB_565 exactly for RGB565; frames are copied unchanged exactly for RGB565 and RGBA8888, converted from UYVY exactly for UYVY, and RenderScript is set up exactly for the converting strategies |
| Rendering.AllocationSizes | app/src/main/jni/FrameRenderer.cpp:57-58 | the input allocation holds the whole number of four-byte elements in the buffer, the output allocation half the buffer length |
| Rendering.ConversionAllocationsFitFrame | app/src/main/jni/FrameRenderer.cpp:50-58 | for a converting strategy the output allocation has exactly one RGBA element per pixel, and the input one element per two pixels |
| Rendering.ConversionEngine.constructor | app/src/main/jni/FrameRenderer.cpp:66-71 | two distinct fresh allocations of AllocationSizes' element counts, four bytes per element, and no kernel launched |
| Rendering.FrameRenderer.constructor | app/src/main/jni/FrameRenderer.cpp:5-44 | geometry, window format and strategy are those Select gives, and a RenderScript engine sized from the buffer length exists exactly when Select asks for it |
| Rendering.FrameRenderer.RenderFrame | app/src/main/jni/FrameRenderer.cpp:79-88 | the window geometry and format are declared every frame; then the bound strategy's effect, as the three rows below state |
| Rendering.FrameRenderer.ProcessFromRgb | app/src/main/jni/FrameRenderer.cpp:119-126 | when the lock succeeds the frame's bytes replace the start of the window buffer and one frame is posted; otherwise the window is untouched |
| Rendering.FrameRenderer.ProcessFromYuyv | app/src/main/jni/FrameRenderer.cpp:91-102 | the input allocation receives the frame's leading bytes, the YUYV kernel is launched once, and the output reaches the window and is posted only when the lock succeeds |
| Rendering.FrameRenderer.ProcessFromUyvy | app/src/main/jni/FrameRenderer.cpp:106-117 | as for YUYV, with the UYVY kernel |
| Rendering.FrameRenderer.Convert | app/src/main/jni/FrameRenderer.cpp:93-101 | the copy-in, one launch of the given kernel, and the lock-guarded copy-out shared by both conversion paths |
| Pipeline.StrategyFor | app/src/main/jni/FrameRenderer.cpp:15-37 | the renderer strategy for a negotiated pixel format: copy unchanged exactly for RGB565, the UYVY kernel exactly for UYVY, the YUYV kernel exactly for YUYV |
| Pipeline.StrategyAgreesExceptRgba8888 | app/src/main/jni/VideoDevice.cpp:131-143 | the renderer's strategy matches the pixel format init_device negotiates for every colour format except RGBA8888, and only there does it differ |
| Pipeline.ConversionFitsFrame | app/src/main/jni/FrameRenderer.cpp:50-58 | on the conversion paths a frame the driver delivers holds at least the bytes the input allocation copies in, and the output allocation is four bytes per frame pixel |
| Pipeline.WindowFilledExactlyExceptRgba8888 | app/src/main/jni/FrameRenderer.cpp:15-43 | for a non-empty frame, the bytes the renderer writes equal the size of the window it declared exactly when the colour format is not RGBA8888 |
| Pipeline.Rgba8888Mismatch | app/src/main/jni/FrameRenderer.cpp:33-37 | for RGBA8888 the device asks for YUYV while the renderer copies the bytes unchanged into an RGBA_8888 window with a buffer length twice a YUYV frame's |
| Pipeline.Rgb565Setup | app/src/main/jni/VideoDevice.cpp:45-211 | a 640x480 RGB565 device whose four buffers all map is open on descriptor 3 with a pool of four live slots of 640x480x2 bytes each; its renderer copies frames unchanged into a 640x480 RGB_565 window with no RenderScript engine |

## Left out

- The JNI glue, the Java side, logging, `sleep(1)` after a timeout, and the two-second `select` timeout value are not modelled.
- The `VideoDevice` destructor only calls `stop_device`, which is modelled.
- `errnoexit` is not part of this model. It is taken to yield ERROR_LOCAL, and the value of `errno` it logs is dropped.
- The header that defines `DeviceSettings`, `CaptureBuffer` and the result constants is not part of this model. Those types are rebuilt in `settings.dfy` and `video_device.dfy`.
- Capture.V4l2Open: a permission failure (EACCES) is not a distinct result. The code only logs it and returns -1 like any other failure.
- Capture.VideoDevice.InitDevice: modelled only for a device without a pool. A second `init_device` would leak the first pool; that leak is not modelled.
- Capture.VideoDevice.ReadFrame: the `assert(buf.index < buffer_count)` is a precondition. A driver that breaks it would abort the process, which is not modelled.
- Capture.VideoDevice.ProcessCapture: stated only for a script of `select` and dequeue replies in which some pass ends the loop. A driver that never times out and never yields a frame would make the loop run forever.
- Capture.VideoDevice.ProcessCapture: the in-pool bound on the returned slot holds only when the current index starts inside the pool. With an empty pool, an ending pass with a failed dequeue returns slot 0 of a pool that has no slot 0.
- Capture.VideoDevice.UninitDevice: `free` is a flag, `poolReleased`, which a second successful sweep sets again. The double free of a second `stop_device` is therefore not flagged as undefined behaviour, and neither is reading a slot of a freed pool after stop.
- Capture.CaptureBuffer: the `start` pointer and the bytes of a mapped buffer are not modelled. A frame's bytes reach the renderer as a parameter.
- Rendering.FrameRenderer.RenderFrame: `ANativeWindow_fromSurface` and `ANativeWindow_release` are not modelled. The window is a parameter.
- Rendering.FrameRenderer.ProcessFromRgb: requires that the window buffer holds the frame. The code copies `length` bytes without checking, so a smaller buffer would be overwritten past its end.
- Rendering.FrameRenderer.Convert: the RenderScript kernels are not part of this model. The converted bytes they produce are a parameter, so no colour-space arithmetic is stated.
- Rendering.FrameRenderer.Convert: requires that the frame holds at least the input allocation's bytes and that the window buffer holds the output allocation. The code checks neither: `copy1DFrom` reads a whole input allocation from the frame, and `copy1DTo` writes a whole output allocation, twice the buffer length, into the window. The same two preconditions sit on `ProcessFromYuyv`, `ProcessFromUyvy` and `RenderFrame`.
- Rendering.AllocationSizes: `bufLength * 2` is computed in a 32-bit `int` in the code. The model uses unbounded naturals, so it does not model that overflow.
- Rendering.Select: `frameWidth*frameHeight*bytes` is computed in a 32-bit `int` in the code. The model uses unbounded naturals, so it does not model overflow for huge frames or negative dimensions.
- RenderScript set-up (`RS::init` with the cache path, `ScriptC_convert`, `set_output`) is reduced to the two allocations and the launched kernels.
