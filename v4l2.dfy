/**
 * The kernel side of the capture device: the replies the V4L2 driver and the
 * operating system give to each call, and the requests the device manager
 * issues.  Every system call is modelled by its outcome only.
 */
module V4l2 {

  // Linux errno values the device manager distinguishes.
  const EINTR: int := 4
  const EIO: int := 5
  const EBADF: int := 9
  const EAGAIN: int := 11
  const EACCES: int := 13
  const EINVAL: int := 22

  /** Result of an ioctl (or of close/munmap): success, or -1 with errno. */
  datatype IoctlResult = Done | Failed(errno: int)

  /** Capability bits of `struct v4l2_capability` that the code tests. */
  datatype Capability = VideoCapture | Streaming | OtherCapability(bit: nat)

  /** Reply to VIDIOC_QUERYCAP: the driver name (a C string, so a NUL byte
      ends it) and the capability set. */
  datatype CapReply = CapFailed(errno: int) | Caps(driver: string, capabilities: set<Capability>)

  /** Outcome of `stat` + `S_ISCHR` + `open(O_RDWR | O_NONBLOCK)`. */
  datatype OpenOutcome = StatFailed(errno: int) | NotCharDevice | OpenFailed(errno: int) | Opened(fd: nat)

  /** The kernel video standards the device requests (V4L2_STD_NTSC, V4L2_STD_PAL). */
  datatype KernelStandard = StdNtsc | StdPal

  /** The kernel pixel formats the device requests (V4L2_PIX_FMT_*). */
  datatype PixelFormat = PixYuyv | PixUyvy | PixRgb565

  /** The per-buffer replies during mapping: VIDIOC_QUERYBUF fails, or it
      reports a length and `mmap` of that length fails or succeeds. */
  datatype BufferReply = QueryBufFailed(errno: int) | MmapFailed(length: nat) | Mapped(length: nat)

  /** Reply to VIDIOC_REQBUFS: an error, or the buffers the driver grants
      (their number is the granted count) with the reply for each. */
  datatype ReqBufsReply = ReqBufsFailed(errno: int) | Granted(buffers: seq<BufferReply>)

  /** Reply to VIDIOC_DQBUF: an error, or the index of a filled buffer. */
  datatype DequeueReply = DequeueFailed(errno: int) | Dequeued(index: nat)

  /** Outcome of `select` on the device with the two-second timeout. */
  datatype SelectReply = Readable | TimedOut | SelectFailed(errno: int)

  /** Every request the device manager makes of the driver, in the order it
      makes them.  `Wait` is one readiness wait (`select`). */
  datatype Request =
    | QueryCap
    | SetStandard(std: KernelStandard)
    | CropCap
    | SetCrop
    | SetFormat(width: nat, height: nat, pixelFormat: PixelFormat)
    | RequestBuffers(count: nat)
    | QueryBuf(index: nat)
    | Mmap(index: nat, length: nat)
    | Enqueue(index: nat)
    | StreamOn
    | Wait
    | Dequeue
    | StreamOff
    | Munmap(index: nat)
    | Close(fd: int)
}
