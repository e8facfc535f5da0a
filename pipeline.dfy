/**
 * How the two halves fit together: the pixel format the device negotiates
 * with the driver and the strategy the renderer binds are both chosen from the
 * same colour-format setting, and must agree for frames to render correctly.
 */
module Pipeline {
  import opened Settings
  import opened V4l2
  import Capture
  import Rendering
  import opened Wrappers

  /** The strategy that renders frames of a given kernel pixel format. */
  function StrategyFor(p: PixelFormat): (s: Rendering.Strategy)
    ensures s == Rendering.FromRgb <==> p == PixRgb565
    ensures s == Rendering.FromUyvy <==> p == PixUyvy
    ensures s == Rendering.FromYuyv <==> p == PixYuyv
  {
    match p
    case PixYuyv => Rendering.FromYuyv
    case PixUyvy => Rendering.FromUyvy
    case PixRgb565 => Rendering.FromRgb
  }

  /** Every pixel format the device requests packs a pixel in two bytes. */
  function BytesPerPixel(p: PixelFormat): nat {
    match p
    case PixYuyv => 2
    case PixUyvy => 2
    case PixRgb565 => 2
  }

  /** The bytes a pixel occupies in a window of each format. */
  function WindowBytesPerPixel(f: Rendering.WindowFormat): nat {
    match f
    case WindowRgba8888 => 4
    case WindowRgb565 => 2
  }

  /** The size of one frame the driver delivers for a colour format. */
  function FrameBytes(c: ColorFormat, width: nat, height: nat): nat {
    width * height * BytesPerPixel(Capture.PixelFormatFor(c))
  }

  /** The bytes the renderer writes to the window for one such frame: the
      whole frame on the copy path, the whole output allocation on the
      conversion paths. */
  function WindowBytesWritten(c: ColorFormat, width: nat, height: nat): nat {
    var cfg := Rendering.Select(c, width, height);
    if cfg.strategy == Rendering.FromRgb then FrameBytes(c, width, height)
    else Rendering.AllocationSizes(cfg.bufLength).1 * 4
  }

  /** The renderer's strategy matches the negotiated pixel format for every
      colour format except RGBA8888. */
  lemma StrategyAgreesExceptRgba8888(c: ColorFormat, width: nat, height: nat)
    ensures Rendering.Select(c, width, height).strategy == StrategyFor(Capture.PixelFormatFor(c))
            <==> c != RGBA8888
  {
  }

  /** On the conversion paths a delivered frame holds at least the bytes the
      input allocation copies in, which is what rendering asks of a frame,
      and the output allocation is one RGBA pixel per frame pixel. */
  lemma ConversionFitsFrame(c: ColorFormat, width: nat, height: nat)
    requires Rendering.Select(c, width, height).initRenderscript
    ensures Rendering.AllocationSizes(Rendering.Select(c, width, height).bufLength).0 * 4
            <= FrameBytes(c, width, height)
    ensures Rendering.AllocationSizes(Rendering.Select(c, width, height).bufLength).1 * 4
            == width * height * WindowBytesPerPixel(Rendering.WindowRgba8888)
  {
  }

  /** For a non-empty frame, what the renderer writes fills the window it
      declared exactly, for every colour format except RGBA8888. */
  lemma WindowFilledExactlyExceptRgba8888(c: ColorFormat, width: nat, height: nat)
    requires width * height > 0
    ensures WindowBytesWritten(c, width, height)
            == width * height * WindowBytesPerPixel(Rendering.Select(c, width, height).windowFormat)
            <==> c != RGBA8888
  {
  }

  /** For RGBA8888 the device asks for YUYV frames while the renderer copies
      the bytes unchanged into an RGBA_8888 window sized for four bytes per
      pixel, twice what a YUYV frame holds. */
  lemma Rgba8888Mismatch(width: nat, height: nat)
    ensures Capture.PixelFormatFor(RGBA8888) == PixYuyv
    ensures Rendering.Select(RGBA8888, width, height).strategy == Rendering.FromRgb
    ensures Rendering.Select(RGBA8888, width, height).windowFormat == Rendering.WindowRgba8888
    ensures Rendering.Select(RGBA8888, width, height).bufLength
            == 2 * FrameBytes(RGBA8888, width, height)
  {
  }

  /** The 640x480 RGB565 settings of the sessions below. */
  function Rgb565Settings(): DeviceSettings {
    DeviceSettings("/dev/video0", 640, 480, RGB565, NTSC, 4)
  }

  /** A 640x480 RGB565 device with four granted buffers: configuration maps
      all four, each with the length of one RGB565 frame, and the renderer
      copies frames unchanged into an RGB_565 window without RenderScript. */
  method Rgb565Setup() returns (device: Capture.VideoDevice, renderer: Rendering.FrameRenderer)
    ensures fresh(device) && device.frameBuffers != null && fresh(device.frameBuffers)
    ensures device.Valid() && device.fileDescriptor == 3
    ensures device.bufferCount == 4 && !device.poolReleased && device.curBufferIndex == 0
    ensures device.frameBuffers.Length == 4
    ensures forall i :: 0 <= i < 4 ==> device.frameBuffers[i] == Capture.CaptureBuffer(640 * 480 * 2, true)
    ensures renderer.Valid() && renderer.frameWidth == 640 && renderer.frameHeight == 480
    ensures renderer.processFrame == Rendering.FromRgb
    ensures renderer.framePixelFormat == Rendering.WindowRgb565
    ensures renderer.engine == null
  {
    var settings := Rgb565Settings();
    device := new Capture.VideoDevice(settings);
    var s := device.OpenDevice(Opened(3));
    assert s == Capture.SuccessLocal;

    var len := 640 * 480 * 2;
    var bufs := [Mapped(len), Mapped(len), Mapped(len), Mapped(len)];
    var replies := Capture.InitReplies(
      Caps("usbtv", {VideoCapture, Streaming}), Done, Done, Done, Done, Granted(bufs), true);
    s := device.InitDevice(replies);
    assert Capture.MappedPrefix(bufs) == 4;
    assert s == Capture.SuccessLocal && device.bufferCount == 4;

    renderer := new Rendering.FrameRenderer(settings);
  }

  /** Streaming on the configured device: all four buffers are queued, and a
      readable descriptor followed by a dequeue of buffer 2 yields slot 2. */
  method Rgb565Capture() {
    var device, _ := Rgb565Setup();
    var s := device.StartCapture([Done, Done, Done, Done], Done);
    assert s == Capture.SuccessLocal;
    var rounds := [Capture.PollRound(Readable, Dequeued(2), Done)];
    assert Capture.Ends(rounds[0]);
    var slot := device.ProcessCapture(rounds);
    assert slot == Some(2);
  }

  /** stop_device leaves the descriptor set and the count unchanged, so a
      later capture whose select and dequeue both fail on the closed
      descriptor still returns a slot of the freed pool. */
  method CaptureAfterStop() {
    var device, _ := Rgb565Setup();
    device.StopDevice(Done, [Done, Done, Done, Done], true);
    assert device.fileDescriptor == 3 && device.bufferCount == 4 && device.poolReleased;
    assert !device.frameBuffers[0].mapped;
    var rounds := [Capture.PollRound(SelectFailed(EBADF), DequeueFailed(EBADF), Done)];
    assert Capture.Ends(rounds[0]);
    var slot := device.ProcessCapture(rounds);
    assert slot == Some(0);
  }

  /** A second stop_device (the destructor runs one after an explicit stop)
      issues STREAMOFF, unmaps all four slots and closes descriptor 3 once
      more, then frees the already freed pool again. */
  method DoubleStop() {
    var device, _ := Rgb565Setup();
    device.StopDevice(Done, [Done, Done, Done, Done], true);
    var afterFirst := device.requests;
    device.StopDevice(Done, [Done, Done, Done, Done], true);
    assert device.requests
           == afterFirst + [StreamOff] + Capture.Sweep(Capture.UnmapOp, 4) + [Close(3)];
    Capture.SweepInOrder(Capture.UnmapOp, 4);
    assert device.requests[|afterFirst| + 1] == Munmap(0);
    assert device.poolReleased;
  }

  /** Rendering an RGB565 frame: with the lock the window buffer becomes the
      frame and one frame is posted; without it nothing changes. */
  method Rgb565Render(frame: seq<bv8>, other: seq<bv8>)
    requires |frame| == |other| == FrameBytes(RGB565, 640, 480)
  {
    var _, renderer := Rgb565Setup();
    var window := new Rendering.NativeWindow(640 * 480 * 2);
    renderer.RenderFrame(window, frame, true, []);
    assert window.bits[..] == frame && window.posts == 1;
    assert window.width == 640 && window.height == 480 && window.format == Rendering.WindowRgb565;
    renderer.RenderFrame(window, other, false, []);
    assert window.bits[..] == frame && window.posts == 1;
  }

  /** Rendering a YUYV frame: the delivered frame fills the input allocation,
      and the kernel's output fills the RGBA_8888 window exactly. */
  method YuyvRender(frame: seq<bv8>, converted: seq<bv8>)
    requires |frame| == FrameBytes(YUYV, 640, 480)
    requires |converted| == 640 * 480 * 4
  {
    var settings := DeviceSettings("/dev/video0", 640, 480, YUYV, NTSC, 4);
    var renderer := new Rendering.FrameRenderer(settings);
    ConversionFitsFrame(YUYV, 640, 480);
    var window := new Rendering.NativeWindow(640 * 480 * WindowBytesPerPixel(renderer.framePixelFormat));
    renderer.RenderFrame(window, frame, true, converted);
    assert window.bits[..] == converted && window.posts == 1;
    assert renderer.engine.launches == [Rendering.ConvertFromYuyv];
  }

  /** A driver that grants a single buffer: init_mmap rejects it before any
      pool is allocated. */
  method SingleBufferRejected()
  {
    var settings := DeviceSettings("/dev/video0", 720, 480, YUYV, PAL, 1);
    var device := new Capture.VideoDevice(settings);
    var s := device.OpenDevice(Opened(5));
    var replies := Capture.InitReplies(
      Caps("em28xx", {VideoCapture, Streaming}), Done, Failed(EINVAL), Done, Done,
      Granted([Mapped(720 * 480 * 2)]), true);
    s := device.InitDevice(replies);
    assert s == Capture.ErrorLocal && device.frameBuffers == null && device.bufferCount == 0;
  }
}
