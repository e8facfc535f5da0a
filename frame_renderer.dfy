/**
 * The frame renderer of FrameRenderer.cpp: a conversion strategy chosen once
 * from the colour format, and the per-frame present path that declares the
 * window geometry, converts or copies the captured bytes, and writes them to
 * the window only when the window buffer could be locked.
 *
 * The RenderScript conversion kernels are opaque: what a kernel writes into
 * the output allocation is a parameter of the present path.
 */
module Rendering {
  import opened Settings

  /** The window pixel formats the renderer declares
      (WINDOW_FORMAT_RGBA_8888, WINDOW_FORMAT_RGB_565). */
  datatype WindowFormat = WindowRgba8888 | WindowRgb565

  /** The member function bound to `processFrame`. */
  datatype Strategy = FromYuyv | FromUyvy | FromRgb

  /** The RenderScript kernel a conversion launches. */
  datatype Kernel = ConvertFromYuyv | ConvertFromUyvy

  /** What the constructor's switch selects: the input buffer length in bytes,
      the window format, the strategy, and whether RenderScript is set up. */
  datatype Configuration = Configuration(
    bufLength: nat,
    windowFormat: WindowFormat,
    strategy: Strategy,
    initRenderscript: bool)

  /** The constructor's selection table. */
  function Select(format: ColorFormat, width: nat, height: nat): (cfg: Configuration)
    ensures cfg.bufLength == width * height * (if format == RGBA8888 then 4 else 2)
    ensures cfg.windowFormat == WindowRgb565 <==> format == RGB565
    ensures cfg.strategy == FromRgb <==> format == RGB565 || format == RGBA8888
    ensures cfg.strategy == FromUyvy <==> format == UYVY
    ensures cfg.initRenderscript <==> cfg.strategy != FromRgb
  {
    match format
    case YUYV => Configuration(width * height * 2, WindowRgba8888, FromYuyv, true)
    case UYVY => Configuration(width * height * 2, WindowRgba8888, FromUyvy, true)
    // no RenderScript for the RGB formats: no conversion is needed
    case RGB565 => Configuration(width * height * 2, WindowRgb565, FromRgb, false)
    case RGBA8888 => Configuration(width * height * 4, WindowRgba8888, FromRgb, false)
    case OtherFormat(_) => Configuration(width * height * 2, WindowRgba8888, FromYuyv, true)
  }

  /** `initRenderscript`'s element counts: the input allocation holds U8_4
      elements (four bytes each), the output allocation RGBA_8888 elements,
      twice as many bytes as the input. */
  function AllocationSizes(bufLength: nat): (sizes: (nat, nat))
    ensures sizes.0 * 4 <= bufLength < sizes.0 * 4 + 4
    ensures sizes.1 == bufLength / 2
  {
    (bufLength / 4, (bufLength * 2) / 4)
  }

  /** For the conversion strategies the output allocation has one RGBA
      element per pixel, and the input one U8_4 element per two pixels. */
  lemma ConversionAllocationsFitFrame(format: ColorFormat, width: nat, height: nat)
    requires Select(format, width, height).initRenderscript
    ensures AllocationSizes(Select(format, width, height).bufLength).1 == width * height
    ensures AllocationSizes(Select(format, width, height).bufLength).0 == (width * height) / 2
  {
  }

  /** The RenderScript resources: the input and output allocations as bytes,
      and the kernels launched so far. */
  class ConversionEngine {
    const inputAlloc: array<bv8>
    const outputAlloc: array<bv8>
    var launches: seq<Kernel>

    constructor (bufLength: nat)
      ensures inputAlloc.Length == AllocationSizes(bufLength).0 * 4
      ensures outputAlloc.Length == AllocationSizes(bufLength).1 * 4
      ensures fresh(inputAlloc) && fresh(outputAlloc) && inputAlloc != outputAlloc
      ensures launches == []
    {
      var sizes := AllocationSizes(bufLength);
      inputAlloc := new bv8[sizes.0 * 4];
      outputAlloc := new bv8[sizes.1 * 4];
      launches := [];
    }
  }

  /** The part of a native window the renderer uses: the declared geometry,
      the buffer handed out by a successful lock, and the posted frames. */
  class NativeWindow {
    var width: int
    var height: int
    var format: WindowFormat
    const bits: array<bv8>
    var posts: nat

    constructor (capacity: nat)
      ensures bits.Length == capacity && fresh(bits)
      ensures posts == 0
    {
      width, height, format := 0, 0, WindowRgba8888;
      bits := new bv8[capacity];
      posts := 0;
    }
  }

  class FrameRenderer {
    const frameWidth: nat
    const frameHeight: nat
    const framePixelFormat: WindowFormat
    /** Bound once here and never reassigned. */
    const processFrame: Strategy
    /** Present exactly when RenderScript was initialised. */
    const engine: ConversionEngine?

    ghost predicate Valid() {
      && (engine != null <==> processFrame != FromRgb)
      && (engine != null ==> engine.inputAlloc != engine.outputAlloc)
    }

    constructor (dSets: DeviceSettings)
      ensures frameWidth == dSets.frameWidth && frameHeight == dSets.frameHeight
      ensures var cfg := Select(dSets.colorFormat, dSets.frameWidth, dSets.frameHeight);
              && framePixelFormat == cfg.windowFormat
              && processFrame == cfg.strategy
              && (engine != null <==> cfg.initRenderscript)
              && (engine != null ==>
                    && fresh(engine) && fresh(engine.inputAlloc) && fresh(engine.outputAlloc)
                    && engine.launches == []
                    && engine.inputAlloc.Length == AllocationSizes(cfg.bufLength).0 * 4
                    && engine.outputAlloc.Length == AllocationSizes(cfg.bufLength).1 * 4)
      ensures Valid()
    {
      frameWidth := dSets.frameWidth;
      frameHeight := dSets.frameHeight;
      var cfg := Select(dSets.colorFormat, dSets.frameWidth, dSets.frameHeight);
      framePixelFormat := cfg.windowFormat;
      processFrame := cfg.strategy;
      if cfg.initRenderscript {
        engine := new ConversionEngine(cfg.bufLength);
      } else {
        engine := null;
      }
    }

    /** `renderFrame`: declare the window geometry, then run the bound strategy. */
    method RenderFrame(window: NativeWindow, frame: seq<bv8>, lockOk: bool, converted: seq<bv8>)
      requires Valid()
      requires processFrame == FromRgb ==> |frame| <= window.bits.Length
      requires engine != null ==>
                 && |frame| >= engine.inputAlloc.Length
                 && |converted| == engine.outputAlloc.Length <= window.bits.Length
                 && window.bits != engine.inputAlloc && window.bits != engine.outputAlloc
      modifies window, window.bits, engine
      modifies if engine != null then {engine.inputAlloc, engine.outputAlloc} else {}
      ensures window.width == frameWidth && window.height == frameHeight
      ensures window.format == framePixelFormat
      ensures processFrame == FromRgb ==>
                && window.bits[..] == (if lockOk then frame + old(window.bits[|frame|..]) else old(window.bits[..]))
                && window.posts == old(window.posts) + (if lockOk then 1 else 0)
      ensures engine != null ==>
                && engine.inputAlloc[..] == frame[..engine.inputAlloc.Length]
                && engine.outputAlloc[..] == converted
                && engine.launches == old(engine.launches) + [KernelFor(processFrame)]
                && window.bits[..] == (if lockOk then converted + old(window.bits[|converted|..]) else old(window.bits[..]))
                && window.posts == old(window.posts) + (if lockOk then 1 else 0)
    {
      window.width, window.height, window.format := frameWidth, frameHeight, framePixelFormat;
      match processFrame
      case FromYuyv => ProcessFromYuyv(window, frame, lockOk, converted);
      case FromUyvy => ProcessFromUyvy(window, frame, lockOk, converted);
      case FromRgb => ProcessFromRgb(window, frame, lockOk);
    }

    /** `processFromRGB`: when the lock succeeds, copy the frame's `length`
        bytes unchanged to the start of the window buffer and post it; the
        code does not check the window buffer is large enough, hence the
        capacity precondition. */
    method ProcessFromRgb(window: NativeWindow, frame: seq<bv8>, lockOk: bool)
      requires |frame| <= window.bits.Length
      modifies window.bits, window`posts
      ensures window.bits[..] == if lockOk then frame + old(window.bits[|frame|..]) else old(window.bits[..])
      ensures window.posts == old(window.posts) + (if lockOk then 1 else 0)
    {
      if lockOk {
        forall i | 0 <= i < |frame| {
          window.bits[i] := frame[i];
        }
        window.posts := window.posts + 1;
      }
    }

    /** `processFromYUYV`. */
    method ProcessFromYuyv(window: NativeWindow, frame: seq<bv8>, lockOk: bool, converted: seq<bv8>)
      requires Valid() && processFrame == FromYuyv
      requires |frame| >= engine.inputAlloc.Length
      requires |converted| == engine.outputAlloc.Length <= window.bits.Length
      requires window.bits != engine.inputAlloc && window.bits != engine.outputAlloc
      modifies engine, engine.inputAlloc, engine.outputAlloc, window.bits, window`posts
      ensures engine.inputAlloc[..] == frame[..engine.inputAlloc.Length]
      ensures engine.outputAlloc[..] == converted
      ensures engine.launches == old(engine.launches) + [ConvertFromYuyv]
      ensures window.bits[..] == if lockOk then converted + old(window.bits[|converted|..]) else old(window.bits[..])
      ensures window.posts == old(window.posts) + (if lockOk then 1 else 0)
    {
      Convert(ConvertFromYuyv, window, frame, lockOk, converted);
    }

    /** `processFromUYVY`. */
    method ProcessFromUyvy(window: NativeWindow, frame: seq<bv8>, lockOk: bool, converted: seq<bv8>)
      requires Valid() && processFrame == FromUyvy
      requires |frame| >= engine.inputAlloc.Length
      requires |converted| == engine.outputAlloc.Length <= window.bits.Length
      requires window.bits != engine.inputAlloc && window.bits != engine.outputAlloc
      modifies engine, engine.inputAlloc, engine.outputAlloc, window.bits, window`posts
      ensures engine.inputAlloc[..] == frame[..engine.inputAlloc.Length]
      ensures engine.outputAlloc[..] == converted
      ensures engine.launches == old(engine.launches) + [ConvertFromUyvy]
      ensures window.bits[..] == if lockOk then converted + old(window.bits[|converted|..]) else old(window.bits[..])
      ensures window.posts == old(window.posts) + (if lockOk then 1 else 0)
    {
      Convert(ConvertFromUyvy, window, frame, lockOk, converted);
    }

    /** The body shared by the two YUV paths: copy the frame into the input
        allocation, launch the kernel (whose output is `converted`), and copy
        the output allocation to the window only when the lock succeeds. */
    method Convert(kernel: Kernel, window: NativeWindow, frame: seq<bv8>, lockOk: bool, converted: seq<bv8>)
      requires engine != null && engine.inputAlloc != engine.outputAlloc
      requires |frame| >= engine.inputAlloc.Length
      requires |converted| == engine.outputAlloc.Length <= window.bits.Length
      requires window.bits != engine.inputAlloc && window.bits != engine.outputAlloc
      modifies engine, engine.inputAlloc, engine.outputAlloc, window.bits, window`posts
      ensures engine.inputAlloc[..] == frame[..engine.inputAlloc.Length]
      ensures engine.outputAlloc[..] == converted
      ensures engine.launches == old(engine.launches) + [kernel]
      ensures window.bits[..] == if lockOk then converted + old(window.bits[|converted|..]) else old(window.bits[..])
      ensures window.posts == old(window.posts) + (if lockOk then 1 else 0)
    {
      var input, output := engine.inputAlloc, engine.outputAlloc;
      forall i | 0 <= i < input.Length {
        input[i] := frame[i];
      }
      engine.launches := engine.launches + [kernel];
      forall i | 0 <= i < output.Length {
        output[i] := converted[i];
      }
      if lockOk {
        forall i | 0 <= i < output.Length {
          window.bits[i] := output[i];
        }
        window.posts := window.posts + 1;
      }
    }
  }

  /** The kernel each conversion strategy launches. */
  function KernelFor(s: Strategy): Kernel {
    if s == FromUyvy then ConvertFromUyvy else ConvertFromYuyv
  }
}
