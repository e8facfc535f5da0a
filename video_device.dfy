/**
 * The capture device manager of VideoDevice.cpp: device probing, the
 * open / init / start / capture / stop lifecycle of a V4L2 capture device with
 * a pool of memory-mapped buffers.
 *
 * Every system call (stat, open, close, ioctl, mmap, munmap, select) is
 * replaced by its outcome, passed in as a parameter.  What the device manager
 * asks of an open descriptor is recorded, in order, in `VideoDevice.requests`.
 */
module Capture {
  import opened Wrappers
  import opened Settings
  import opened V4l2

  /** SUCCESS_LOCAL / ERROR_LOCAL.  `errnoexit`, whose body is not part of this
      model, is taken to yield ErrorLocal. */
  datatype Status = SuccessLocal | ErrorLocal

  /** What `read_frame` returns: 0, 1, or the result of `errnoexit`. */
  datatype ReadStatus = NotReady | Ready | ReadError

  /** One slot of the buffer pool: its driver-reported length and whether its
      `mmap` succeeded (the `start` pointer is a live mapping).  A slot fresh
      from `calloc` is CaptureBuffer(0, false). */
  datatype CaptureBuffer = CaptureBuffer(length: nat, mapped: bool)

  // ---------------------------------------------------------------------
  // Opening, closing and probing
  // ---------------------------------------------------------------------

  /** `v4l2_open`: the new descriptor, or -1 (ERROR_LOCAL) when the path does
      not exist, is not a character device, or cannot be opened; a permission
      failure (EACCES) is only logged and gives -1 like any other. */
  function V4l2Open(o: OpenOutcome): (fd: int)
    ensures fd >= -1
    ensures fd == -1 <==> !o.Opened?
    ensures o.Opened? ==> fd == o.fd
  {
    match o
    case StatFailed(_) => -1
    case NotCharDevice => -1
    case OpenFailed(_) => -1
    case Opened(fd) => fd
  }

  /** `v4l2_close`: `close` is called only for a descriptor other than -1, and
      only its failure is an error.  The descriptor is a value parameter, so
      the caller's copy is never reset. */
  function V4l2Close(fd: int, closeOk: bool): (s: Status)
    ensures s == ErrorLocal <==> fd != -1 && !closeOk
  {
    if fd != -1 && !closeOk then ErrorLocal else SuccessLocal
  }

  /** The character at position i of a C string; a position past the end reads
      as the terminating NUL. */
  function CharAt(s: string, i: nat): char {
    if i < |s| then s[i] else '\0'
  }

  /** `strncmp(a, b, n) == 0`, looking at positions i up to n: it stops at the
      first difference, at a NUL common to both strings, or after n characters. */
  function StrNEqualFrom(a: string, b: string, i: nat, n: nat): bool
    decreases n - i
  {
    if i >= n then true
    else if CharAt(a, i) != CharAt(b, i) then false
    else if CharAt(a, i) == '\0' then true
    else StrNEqualFrom(a, b, i + 1, n)
  }

  /** `strncmp(a, b, n) == 0`. */
  function StrNEqual(a: string, b: string, n: nat): bool {
    StrNEqualFrom(a, b, 0, n)
  }

  lemma {:induction false} StrNEqualFromAgrees(a: string, lit: string, i: nat)
    requires i <= |lit|
    requires forall j :: 0 <= j < |lit| ==> lit[j] != '\0'
    ensures StrNEqualFrom(a, lit, i, |lit|) <==> forall j :: i <= j < |lit| ==> CharAt(a, j) == lit[j]
    decreases |lit| - i
  {
    if i < |lit| {
      StrNEqualFromAgrees(a, lit, i + 1);
      assert CharAt(lit, i) == lit[i];
    }
  }

  /** Comparing the first |lit| characters with strncmp tests whether `lit`
      (a literal without NUL) is a prefix of the C string. */
  lemma StrNEqualIsPrefix(a: string, lit: string)
    requires forall j :: 0 <= j < |lit| ==> lit[j] != '\0'
    ensures StrNEqual(a, lit, |lit|) <==> lit <= a
  {
    StrNEqualFromAgrees(a, lit, 0);
    if StrNEqual(a, lit, |lit|) && |lit| > 0 {
      // a string shorter than lit would meet its NUL where lit has none
      var j := if |a| < |lit| then |a| else |lit| - 1;
      assert CharAt(a, j) == lit[j];
      assert a[..|lit|] == lit;
    }
  }

  /** The driver-name test of `detect_device`: the first matching prefix wins. */
  function Classify(driver: string): (t: DeviceType)
    ensures t == if "usbtv" <= driver then Utv007
                 else if "em28xx" <= driver then Empia
                 else if "stk1160" <= driver then Stk1160
                 else if "smi2021" <= driver then Somagic
                 else NoDevice
  {
    StrNEqualIsPrefix(driver, "usbtv");
    StrNEqualIsPrefix(driver, "em28xx");
    StrNEqualIsPrefix(driver, "stk1160");
    StrNEqualIsPrefix(driver, "smi2021");
    if StrNEqual(driver, "usbtv", 5) then Utv007
    else if StrNEqual(driver, "em28xx", 6) then Empia
    else if StrNEqual(driver, "stk1160", 7) then Stk1160
    else if StrNEqual(driver, "smi2021", 7) then Somagic
    else NoDevice
  }

  /** The driver-name prefix that identifies each supported device. */
  function DriverPrefix(t: DeviceType): string {
    match t
    case NoDevice => ""
    case Utv007 => "usbtv"
    case Empia => "em28xx"
    case Stk1160 => "stk1160"
    case Somagic => "smi2021"
  }

  /** No driver name carries two of the prefixes, so the order of the tests
      does not matter: a supported device is recognised exactly by its own
      prefix. */
  lemma ClassifyByPrefix(driver: string, t: DeviceType)
    requires t != NoDevice
    ensures Classify(driver) == t <==> DriverPrefix(t) <= driver
  {
  }

  /** The result of a probe and whether its descriptor was closed. */
  datatype Probe = Probe(device: DeviceType, closed: bool)

  /** `detect_device`: open the node, query its capabilities, classify the
      driver name, close.  Every failure reports NoDevice; when the capability
      query fails the descriptor is left open. */
  function DetectDevice(open: OpenOutcome, cap: CapReply, closeOk: bool): (p: Probe)
    ensures p.device != NoDevice <==>
              open.Opened? && cap.Caps? && closeOk && Classify(cap.driver) != NoDevice
    ensures p.device != NoDevice ==> p.device == Classify(cap.driver)
    ensures p.closed <==> open.Opened? && cap.Caps?
  {
    var fd := V4l2Open(open);
    if fd == -1 then Probe(NoDevice, false)
    else if cap.CapFailed? then Probe(NoDevice, false)
    else
      var devType := Classify(cap.driver);
      if V4l2Close(fd, closeOk) != SuccessLocal then Probe(NoDevice, true)
      else Probe(devType, true)
  }

  // ---------------------------------------------------------------------
  // Configuration (init_device up to init_mmap)
  // ---------------------------------------------------------------------

  /** The kernel standard requested for a selector: PAL for PAL, NTSC otherwise. */
  function StandardFor(id: StandardId): (k: KernelStandard)
    ensures k == StdPal <==> id == PAL
  {
    match id
    case NTSC => StdNtsc
    case PAL => StdPal
    case OtherStandard(_) => StdNtsc
  }

  /** The kernel pixel format requested for a colour format: UYVY and RGB565
      map to themselves, every other format (RGBA8888 included) to YUYV. */
  function PixelFormatFor(c: ColorFormat): (p: PixelFormat)
    ensures p == PixUyvy <==> c == UYVY
    ensures p == PixRgb565 <==> c == RGB565
    ensures p == PixYuyv <==> c != UYVY && c != RGB565
  {
    match c
    case YUYV => PixYuyv
    case UYVY => PixUyvy
    case RGB565 => PixRgb565
    case RGBA8888 => PixYuyv
    case OtherFormat(_) => PixYuyv
  }

  /** The driver's replies during `init_device`, and whether `calloc` of the
      pool succeeds. */
  datatype InitReplies = InitReplies(
    queryCap: CapReply,
    setStandard: IoctlResult,
    cropCap: IoctlResult,
    setCrop: IoctlResult,
    setFormat: IoctlResult,
    requestBuffers: ReqBufsReply,
    poolAllocated: bool)

  /** The part of `init_device` before `init_mmap`: whether it goes on to map
      buffers, and the requests it issues. */
  datatype ConfigPhase = ConfigPhase(proceed: bool, issued: seq<Request>)

  function Configure(s: DeviceSettings, r: InitReplies): (c: ConfigPhase)
    ensures c.proceed <==>
              && r.queryCap.Caps?
              && VideoCapture in r.queryCap.capabilities
              && Streaming in r.queryCap.capabilities
              && r.setStandard.Done?
              && r.setFormat.Done?
    ensures |c.issued| > 0 && c.issued[0] == QueryCap
    ensures c.proceed ==> SetStandard(StandardFor(s.standardId)) in c.issued
    ensures c.proceed ==>
              SetFormat(s.frameWidth, s.frameHeight, PixelFormatFor(s.colorFormat)) in c.issued
  {
    if r.queryCap.CapFailed? then
      // EINVAL and every other errno (through errnoexit) both fail
      ConfigPhase(false, [QueryCap])
    else if VideoCapture !in r.queryCap.capabilities then ConfigPhase(false, [QueryCap])
    else if Streaming !in r.queryCap.capabilities then ConfigPhase(false, [QueryCap])
    else
      var std := [QueryCap, SetStandard(StandardFor(s.standardId))];
      if r.setStandard.Failed? then ConfigPhase(false, std)
      else
        // cropping is best effort: a failed VIDIOC_S_CROP is ignored
        var crop := if r.cropCap.Done? then [CropCap, SetCrop] else [CropCap];
        var fmt := SetFormat(s.frameWidth, s.frameHeight, PixelFormatFor(s.colorFormat));
        ConfigPhase(r.setFormat.Done?, std + crop + [fmt])
  }

  /** Appending one step's requests to a trace already extended by earlier
      steps, for the loops that record their requests step by step. */
  lemma AppendPass(start: seq<Request>, earlier: seq<Request>, pass: seq<Request>)
    ensures start + earlier + pass == start + (earlier + pass)
  {
  }

  // ---------------------------------------------------------------------
  // Buffer mapping (init_mmap)
  // ---------------------------------------------------------------------

  /** Whether `init_mmap` gets as far as allocating a pool: VIDIOC_REQBUFS
      succeeds, grants at least two buffers, and `calloc` succeeds. */
  predicate PoolGranted(reply: ReqBufsReply, callocOk: bool) {
    reply.Granted? && |reply.buffers| >= 2 && callocOk
  }

  /** The number of leading buffers whose query and mapping both succeed. */
  function MappedPrefix(bufs: seq<BufferReply>): (k: nat)
    ensures k <= |bufs|
    ensures forall i :: 0 <= i < k ==> bufs[i].Mapped?
    ensures k < |bufs| ==> !bufs[k].Mapped?
  {
    if bufs == [] || !bufs[0].Mapped? then 0 else 1 + MappedPrefix(bufs[1..])
  }

  /** MappedPrefix is the first index whose reply is not Mapped. */
  lemma MappedPrefixIs(bufs: seq<BufferReply>, k: nat)
    requires k <= |bufs|
    requires forall i :: 0 <= i < k ==> bufs[i].Mapped?
    requires k < |bufs| ==> !bufs[k].Mapped?
    ensures MappedPrefix(bufs) == k
  {
  }

  /** Slot i of the pool after the mapping loop: mapped slots before the first
      failure, the failing slot keeps the length written before its failed
      `mmap`, and the rest stay as `calloc` left them. */
  function SlotAfter(bufs: seq<BufferReply>, i: nat): (b: CaptureBuffer)
    requires i < |bufs|
    ensures b.mapped <==> i < MappedPrefix(bufs)
    ensures b.mapped ==> b.length == bufs[i].length
  {
    var k := MappedPrefix(bufs);
    if i < k then CaptureBuffer(bufs[i].length, true)
    else if i == k && bufs[i].MmapFailed? then CaptureBuffer(bufs[i].length, false)
    else CaptureBuffer(0, false)
  }

  /** The requests the mapping loop issues for one buffer. */
  function SlotRequests(b: BufferReply, i: nat): seq<Request> {
    match b
    case QueryBufFailed(_) => [QueryBuf(i)]
    case MmapFailed(len) => [QueryBuf(i), Mmap(i, len)]
    case Mapped(len) => [QueryBuf(i), Mmap(i, len)]
  }

  /** The requests the mapping loop issues for buffers 0 .. n-1. */
  function MappingRequests(bufs: seq<BufferReply>, n: nat): seq<Request>
    requires n <= |bufs|
  {
    if n == 0 then [] else MappingRequests(bufs, n - 1) + SlotRequests(bufs[n - 1], n - 1)
  }

  /** How many slots a loop over n slots visits when it stops right after its
      first failure, found at slot k (k == n: no failure). */
  function Attempts(k: nat, n: nat): nat {
    if k < n then k + 1 else n
  }

  // ---------------------------------------------------------------------
  // Loops over the pool that stop at the first failure
  // ---------------------------------------------------------------------

  /** The number of leading successes in a sequence of call results. */
  function LeadingDone(rs: seq<IoctlResult>): (k: nat)
    ensures k <= |rs|
    ensures forall i :: 0 <= i < k ==> rs[i].Done?
    ensures k < |rs| ==> rs[k].Failed?
  {
    if rs == [] || rs[0].Failed? then 0 else 1 + LeadingDone(rs[1..])
  }

  /** The per-buffer request a pool loop issues. */
  datatype BufferOp = QueueOp | UnmapOp

  function Issue(op: BufferOp, i: nat): Request {
    match op
    case QueueOp => Enqueue(i)
    case UnmapOp => Munmap(i)
  }

  /** The requests of a pool loop over buffers 0 .. n-1. */
  function Sweep(op: BufferOp, n: nat): seq<Request> {
    if n == 0 then [] else Sweep(op, n - 1) + [Issue(op, n - 1)]
  }

  /** A pool loop addresses buffers 0 .. n-1 once each, in ascending order. */
  lemma {:induction false} SweepInOrder(op: BufferOp, n: nat)
    ensures |Sweep(op, n)| == n
    ensures forall i :: 0 <= i < n ==> Sweep(op, n)[i] == Issue(op, i)
  {
    if n > 0 {
      SweepInOrder(op, n - 1);
    }
  }

  // ---------------------------------------------------------------------
  // The capture loop (process_capture and read_frame)
  // ---------------------------------------------------------------------

  /** `read_frame`'s result for a dequeue reply and the reply to re-enqueueing
      the dequeued buffer. */
  function ReadResult(dq: DequeueReply, rq: IoctlResult): (r: ReadStatus)
    ensures dq == DequeueFailed(EAGAIN) ==> r == NotReady
    ensures dq.DequeueFailed? && dq.errno != EAGAIN ==> r == Ready
    ensures dq.Dequeued? ==> (r == Ready <==> rq.Done?) && r != NotReady
  {
    match dq
    case DequeueFailed(e) => if e == EAGAIN then NotReady else Ready  // EIO and the rest: 1
    case Dequeued(_) => if rq.Done? then Ready else ReadError
  }

  /** The requests `read_frame` issues: the dequeue, then re-enqueueing the
      buffer it returned. */
  function DequeueRequests(dq: DequeueReply): seq<Request> {
    [Dequeue] + (if dq.Dequeued? then [Enqueue(dq.index)] else [])
  }

  /** One pass of the `for(;;)` loop of `process_capture`: the `select`
      outcome, and the replies `read_frame` would get. */
  datatype PollRound = PollRound(select: SelectReply, dequeue: DequeueReply, requeue: IoctlResult)

  /** Whether a pass calls `read_frame`: the device is readable, or `select`
      failed with an errno other than EINTR (its errnoexit result is dropped
      and the loop falls through to read_frame). */
  predicate CallsReadFrame(s: SelectReply) {
    s.Readable? || (s.SelectFailed? && s.errno != EINTR)
  }

  /** Whether a pass leaves the loop: a timeout, or `read_frame` returning 1. */
  predicate Ends(e: PollRound) {
    e.select.TimedOut? || (CallsReadFrame(e.select) && ReadResult(e.dequeue, e.requeue) == Ready)
  }

  /** The current buffer index after one pass. */
  function RoundIndex(cur: nat, e: PollRound): nat {
    if CallsReadFrame(e.select) && e.dequeue.Dequeued? then e.dequeue.index else cur
  }

  /** The current buffer index after a sequence of passes. */
  function IndexAfter(cur: nat, rounds: seq<PollRound>): nat {
    if rounds == [] then cur
    else RoundIndex(IndexAfter(cur, rounds[..|rounds| - 1]), rounds[|rounds| - 1])
  }

  /** The requests one pass issues. */
  function RoundRequests(e: PollRound): seq<Request> {
    [Wait] + (if CallsReadFrame(e.select) then DequeueRequests(e.dequeue) else [])
  }

  /** The requests a sequence of passes issues. */
  function CaptureRequests(rounds: seq<PollRound>): seq<Request> {
    if rounds == [] then []
    else CaptureRequests(rounds[..|rounds| - 1]) + RoundRequests(rounds[|rounds| - 1])
  }

  /** Extending the passes by one unfolds the index and the trace by one pass. */
  lemma PassStep(cur: nat, rounds: seq<PollRound>, i: nat)
    requires i < |rounds|
    ensures IndexAfter(cur, rounds[..i + 1]) == RoundIndex(IndexAfter(cur, rounds[..i]), rounds[i])
    ensures CaptureRequests(rounds[..i + 1]) == CaptureRequests(rounds[..i]) + RoundRequests(rounds[i])
  {
    assert rounds[..i + 1][..i] == rounds[..i];
  }

  /** Every buffer index the driver hands back in these passes is below count. */
  predicate DequeuesWithin(rounds: seq<PollRound>, count: nat) {
    forall j :: 0 <= j < |rounds| && CallsReadFrame(rounds[j].select) && rounds[j].dequeue.Dequeued? ==>
      rounds[j].dequeue.index < count
  }

  /** The pass at which the loop ends. */
  ghost function FirstEnd(rounds: seq<PollRound>): (k: nat)
    requires exists j :: 0 <= j < |rounds| && Ends(rounds[j])
    ensures k < |rounds| && Ends(rounds[k])
    ensures forall j :: 0 <= j < k ==> !Ends(rounds[j])
  {
    if Ends(rounds[0]) then 0
    else
      var j :| 0 <= j < |rounds| && Ends(rounds[j]);
      assert Ends(rounds[1..][j - 1]);
      1 + FirstEnd(rounds[1..])
  }

  /** The current index stays inside the pool when it starts inside and the
      driver only hands back indices inside the pool. */
  lemma {:induction false} IndexAfterInBounds(cur: nat, rounds: seq<PollRound>, count: nat)
    requires cur < count
    requires DequeuesWithin(rounds, count)
    ensures IndexAfter(cur, rounds) < count
  {
    if rounds != [] {
      var init := rounds[..|rounds| - 1];
      assert DequeuesWithin(init, count) by {
        forall j | 0 <= j < |init| ensures init[j] == rounds[j] { }
      }
      IndexAfterInBounds(cur, init, count);
    }
  }

  // ---------------------------------------------------------------------
  // The device manager
  // ---------------------------------------------------------------------

  class VideoDevice {
    const deviceSets: DeviceSettings
    /** The open descriptor, or -1 while unopened. */
    var fileDescriptor: int
    /** The number of pool slots the mapping loop got through. */
    var bufferCount: nat
    /** The `calloc`ed pool, null before init_mmap allocates it. */
    var frameBuffers: array?<CaptureBuffer>
    /** Whether `free(frame_buffers)` has run; the pointer itself is kept. */
    var poolReleased: bool
    /** The index of the buffer most recently dequeued. */
    var curBufferIndex: nat
    /** Every request made on an open descriptor (ioctl, mmap, munmap, select,
        close), in order.  `stat` and `open` are not recorded: their outcome
        is the descriptor itself. */
    var requests: seq<Request>

    ghost predicate Valid()
      reads this
    {
      && fileDescriptor >= -1
      && (frameBuffers == null ==> bufferCount == 0)
      && (frameBuffers != null ==> bufferCount <= frameBuffers.Length)
    }

    /** A new device: unopened, no pool, current index 0. */
    constructor (devSets: DeviceSettings)
      ensures deviceSets == devSets
      ensures fileDescriptor == -1 && bufferCount == 0 && frameBuffers == null && curBufferIndex == 0
      ensures !poolReleased && requests == []
      ensures Valid()
    {
      deviceSets := devSets;
      bufferCount := 0;
      frameBuffers := null;
      fileDescriptor := -1;
      curBufferIndex := 0;
      poolReleased := false;
      requests := [];
    }

    /** `open_device`: stores whatever v4l2_open returns. */
    method OpenDevice(o: OpenOutcome) returns (s: Status)
      requires Valid()
      modifies this`fileDescriptor
      ensures Valid()
      ensures fileDescriptor == V4l2Open(o)
      ensures s == ErrorLocal <==> fileDescriptor == -1
    {
      fileDescriptor := V4l2Open(o);
      if fileDescriptor == -1 {
        return ErrorLocal;
      }
      return SuccessLocal;
    }

    /** `init_device`: capability checks, standard, crop, format, then
        init_mmap.  Modelled for a device whose pool is not yet allocated. */
    method InitDevice(r: InitReplies) returns (s: Status)
      requires Valid() && frameBuffers == null
      modifies this`frameBuffers, this`bufferCount, this`poolReleased, this`requests
      ensures Valid()
      ensures !Configure(deviceSets, r).proceed ==>
                && s == ErrorLocal
                && frameBuffers == null && bufferCount == 0 && poolReleased == old(poolReleased)
                && requests == old(requests) + Configure(deviceSets, r).issued
      ensures Configure(deviceSets, r).proceed && !PoolGranted(r.requestBuffers, r.poolAllocated) ==>
                && s == ErrorLocal
                && frameBuffers == null && bufferCount == 0 && poolReleased == old(poolReleased)
                && requests == old(requests) + Configure(deviceSets, r).issued
                                             + [RequestBuffers(deviceSets.numBuffers)]
      ensures Configure(deviceSets, r).proceed && PoolGranted(r.requestBuffers, r.poolAllocated) ==>
                var bufs := r.requestBuffers.buffers;
                && frameBuffers != null && fresh(frameBuffers)
                && frameBuffers.Length == |bufs|
                && (forall i :: 0 <= i < |bufs| ==> frameBuffers[i] == SlotAfter(bufs, i))
                && bufferCount == MappedPrefix(bufs)
                && !poolReleased
                && (s == SuccessLocal <==> bufferCount == |bufs|)
                && requests == old(requests) + Configure(deviceSets, r).issued
                                             + [RequestBuffers(deviceSets.numBuffers)]
                                             + MappingRequests(bufs, Attempts(bufferCount, |bufs|))
    {
      var c := Configure(deviceSets, r);
      requests := requests + c.issued;
      if !c.proceed {
        return ErrorLocal;
      }
      s := InitMmap(r.requestBuffers, r.poolAllocated);
    }

    /** `init_mmap`: request the pool, then query and map each granted buffer
        in order; the first failure returns at once, without unmapping the
        buffers mapped before it. */
    method InitMmap(reply: ReqBufsReply, callocOk: bool) returns (s: Status)
      requires Valid() && frameBuffers == null
      modifies this`frameBuffers, this`bufferCount, this`poolReleased, this`requests
      ensures Valid()
      ensures !PoolGranted(reply, callocOk) ==>
                && s == ErrorLocal
                && frameBuffers == null && bufferCount == 0 && poolReleased == old(poolReleased)
                && requests == old(requests) + [RequestBuffers(deviceSets.numBuffers)]
      ensures PoolGranted(reply, callocOk) ==>
                var bufs := reply.buffers;
                && frameBuffers != null && fresh(frameBuffers)
                && frameBuffers.Length == |bufs|
                && (forall i :: 0 <= i < |bufs| ==> frameBuffers[i] == SlotAfter(bufs, i))
                && bufferCount == MappedPrefix(bufs)
                && (forall i :: 0 <= i < |bufs| ==> (frameBuffers[i].mapped <==> i < bufferCount))
                && (forall i :: 0 <= i < bufferCount ==> frameBuffers[i].length == bufs[i].length)
                && !poolReleased
                && (s == SuccessLocal <==> bufferCount == |bufs|)
                && requests == old(requests) + [RequestBuffers(deviceSets.numBuffers)]
                                             + MappingRequests(bufs, Attempts(bufferCount, |bufs|))
    {
      requests := requests + [RequestBuffers(deviceSets.numBuffers)];
      if reply.ReqBufsFailed? {
        // EINVAL: no memory-mapping support; any other errno goes through errnoexit
        return ErrorLocal;
      }
      var bufs := reply.buffers;
      if |bufs| < 2 {
        // insufficient buffer memory
        return ErrorLocal;
      }
      if !callocOk {
        frameBuffers := null;
        return ErrorLocal;
      }
      var pool := new CaptureBuffer[|bufs|](_ => CaptureBuffer(0, false));
      frameBuffers := pool;
      poolReleased := false;
      s := MapBuffers(pool, bufs);
    }

    /** The mapping loop of `init_mmap` over a freshly allocated pool. */
    method MapBuffers(pool: array<CaptureBuffer>, bufs: seq<BufferReply>) returns (s: Status)
      requires frameBuffers == pool && pool.Length == |bufs|
      requires forall i :: 0 <= i < |bufs| ==> pool[i] == CaptureBuffer(0, false)
      modifies this`bufferCount, this`requests, pool
      ensures forall i :: 0 <= i < |bufs| ==> pool[i] == SlotAfter(bufs, i)
      ensures bufferCount == MappedPrefix(bufs)
      ensures s == SuccessLocal <==> bufferCount == |bufs|
      ensures requests == old(requests) + MappingRequests(bufs, Attempts(bufferCount, |bufs|))
    {
      bufferCount := 0;
      while bufferCount < |bufs|
        invariant bufferCount <= |bufs|
        invariant forall i :: 0 <= i < bufferCount ==> bufs[i].Mapped?
        invariant forall i :: 0 <= i < |bufs| ==>
                    pool[i] == if i < bufferCount then CaptureBuffer(bufs[i].length, true)
                               else CaptureBuffer(0, false)
        invariant requests == old(requests) + MappingRequests(bufs, bufferCount)
      {
        var ok := MapSlot(pool, bufs[bufferCount], bufferCount);
        AppendPass(old(requests), MappingRequests(bufs, bufferCount), SlotRequests(bufs[bufferCount], bufferCount));
        if !ok {
          MappedPrefixIs(bufs, bufferCount);
          return ErrorLocal;
        }
        bufferCount := bufferCount + 1;
      }
      MappedPrefixIs(bufs, bufferCount);
      return SuccessLocal;
    }

    /** One pass of the mapping loop: query buffer k, record its length, and
        map it; true exactly when both calls succeed. */
    method MapSlot(pool: array<CaptureBuffer>, b: BufferReply, k: nat) returns (ok: bool)
      requires k < pool.Length
      modifies this`requests, pool
      ensures ok <==> b.Mapped?
      ensures pool[k] == match b
                         case QueryBufFailed(_) => old(pool[k])
                         case MmapFailed(len) => CaptureBuffer(len, false)
                         case Mapped(len) => CaptureBuffer(len, true)
      ensures forall j :: 0 <= j < pool.Length && j != k ==> pool[j] == old(pool[j])
      ensures requests == old(requests) + SlotRequests(b, k)
    {
      requests := requests + [QueryBuf(k)];
      if b.QueryBufFailed? {
        return false;
      }
      pool[k] := CaptureBuffer(b.length, false);
      requests := requests + [Mmap(k, b.length)];
      if b.MmapFailed? {
        return false;
      }
      pool[k] := CaptureBuffer(b.length, true);
      return true;
    }

    /** `start_capture`: enqueue buffers 0 .. buffer_count-1 in order, then
        stream on; the first failure returns at once. */
    method StartCapture(queued: seq<IoctlResult>, streamOn: IoctlResult) returns (s: Status)
      requires |queued| == bufferCount
      modifies this`requests
      ensures LeadingDone(queued) < |queued| ==>
                s == ErrorLocal && requests == old(requests) + Sweep(QueueOp, LeadingDone(queued) + 1)
      ensures LeadingDone(queued) == |queued| ==>
                && requests == old(requests) + Sweep(QueueOp, bufferCount) + [StreamOn]
                && (s == SuccessLocal <==> streamOn.Done?)
    {
      var i := 0;
      while i < bufferCount
        invariant i <= bufferCount
        invariant forall j :: 0 <= j < i ==> queued[j].Done?
        invariant requests == old(requests) + Sweep(QueueOp, i)
      {
        requests := requests + [Enqueue(i)];
        if queued[i].Failed? {
          return ErrorLocal;
        }
        i := i + 1;
      }
      requests := requests + [StreamOn];
      if streamOn.Failed? {
        return ErrorLocal;
      }
      return SuccessLocal;
    }

    /** `read_frame`: dequeue one buffer; on success it becomes current and is
        enqueued again at once. */
    method ReadFrame(dq: DequeueReply, rq: IoctlResult) returns (r: ReadStatus)
      requires dq.Dequeued? ==> dq.index < bufferCount
      modifies this`curBufferIndex, this`requests
      ensures r == ReadResult(dq, rq)
      ensures curBufferIndex == if dq.Dequeued? then dq.index else old(curBufferIndex)
      ensures requests == old(requests) + DequeueRequests(dq)
    {
      requests := requests + [Dequeue];
      if dq.DequeueFailed? {
        if dq.errno == EAGAIN {
          return NotReady;
        }
        return Ready;
      }
      curBufferIndex := dq.index;
      requests := requests + [Enqueue(dq.index)];
      if rq.Failed? {
        return ReadError;
      }
      return Ready;
    }

    /** `process_capture`: without a descriptor, no frame and no wait;
        otherwise wait (retrying on EINTR) until a timeout, which gives no
        frame, or until read_frame returns 1, which gives the current slot. */
    method ProcessCapture(rounds: seq<PollRound>) returns (slot: Option<nat>)
      requires fileDescriptor != -1 ==> exists j :: 0 <= j < |rounds| && Ends(rounds[j])
      requires DequeuesWithin(rounds, bufferCount)
      modifies this`curBufferIndex, this`requests
      ensures fileDescriptor == -1 ==>
                slot == None && curBufferIndex == old(curBufferIndex) && requests == old(requests)
      ensures fileDescriptor != -1 ==>
                var k := FirstEnd(rounds);
                && requests == old(requests) + CaptureRequests(rounds[..k + 1])
                && curBufferIndex == IndexAfter(old(curBufferIndex), rounds[..k + 1])
                && slot == if rounds[k].select.TimedOut? then None else Some(curBufferIndex)
      ensures slot.Some? && old(curBufferIndex) < bufferCount ==> slot.value < bufferCount
    {
      if fileDescriptor == -1 {
        return None;
      }
      ghost var last := FirstEnd(rounds);
      var i := 0;
      while true
        invariant i <= last
        invariant curBufferIndex == IndexAfter(old(curBufferIndex), rounds[..i])
        invariant requests == old(requests) + CaptureRequests(rounds[..i])
        decreases last - i
      {
        var e := rounds[i];
        PassStep(old(curBufferIndex), rounds, i);
        AppendPass(old(requests), CaptureRequests(rounds[..i]), RoundRequests(e));
        var ended := PollPass(e);
        if ended {
          if old(curBufferIndex) < bufferCount {
            IndexAfterInBounds(old(curBufferIndex), rounds[..i + 1], bufferCount);
          }
          if e.select.TimedOut? {
            // logged, then sleep(1)
            return None;
          }
          return Some(curBufferIndex);
        }
        i := i + 1;
      }
    }

    /** One pass of the `for(;;)` loop of `process_capture`: wait; on EINTR
        go round again; on a timeout leave; otherwise call read_frame and
        leave when it returns 1. */
    method PollPass(e: PollRound) returns (ended: bool)
      requires CallsReadFrame(e.select) && e.dequeue.Dequeued? ==> e.dequeue.index < bufferCount
      modifies this`curBufferIndex, this`requests
      ensures ended == Ends(e)
      ensures curBufferIndex == RoundIndex(old(curBufferIndex), e)
      ensures requests == old(requests) + RoundRequests(e)
    {
      requests := requests + [Wait];
      if e.select.SelectFailed? && e.select.errno == EINTR {
        return false;
      } else if e.select.TimedOut? {
        return true;
      }
      var r := ReadFrame(e.dequeue, e.requeue);
      return r == Ready;
    }

    /** `stop_capture`: STREAMOFF only when a descriptor is held. */
    method StopCapture(streamOff: IoctlResult) returns (s: Status)
      modifies this`requests
      ensures requests == old(requests) + (if fileDescriptor != -1 then [StreamOff] else [])
      ensures s == ErrorLocal <==> fileDescriptor != -1 && streamOff.Failed?
    {
      if fileDescriptor != -1 {
        requests := requests + [StreamOff];
        if streamOff.Failed? {
          return ErrorLocal;
        }
      }
      return SuccessLocal;
    }

    /** `uninit_device`: unmap slots 0 .. buffer_count-1 in order, stopping at
        the first failure; the pool is freed only when all succeed.  Neither
        buffer_count nor the pool pointer is reset. */
    method UninitDevice(unmapped: seq<IoctlResult>) returns (s: Status)
      requires Valid()
      requires |unmapped| == bufferCount
      modifies this`requests, this`poolReleased, frameBuffers
      ensures Valid()
      ensures requests == old(requests) + Sweep(UnmapOp, Attempts(LeadingDone(unmapped), bufferCount))
      ensures s == SuccessLocal <==> LeadingDone(unmapped) == bufferCount
      ensures poolReleased == (old(poolReleased) || LeadingDone(unmapped) == bufferCount)
      ensures frameBuffers != null ==>
                forall i :: 0 <= i < frameBuffers.Length ==>
                  frameBuffers[i] == if i < LeadingDone(unmapped) then old(frameBuffers[i]).(mapped := false)
                                     else old(frameBuffers[i])
    {
      var i := 0;
      while i < bufferCount
        invariant i <= bufferCount
        invariant forall j :: 0 <= j < i ==> unmapped[j].Done?
        invariant requests == old(requests) + Sweep(UnmapOp, i)
        invariant poolReleased == old(poolReleased)
        invariant frameBuffers != null ==>
                    forall j :: 0 <= j < frameBuffers.Length ==>
                      frameBuffers[j] == if j < i then old(frameBuffers[j]).(mapped := false)
                                         else old(frameBuffers[j])
      {
        requests := requests + [Munmap(i)];
        if unmapped[i].Failed? {
          return ErrorLocal;
        }
        frameBuffers[i] := frameBuffers[i].(mapped := false);
        i := i + 1;
      }
      poolReleased := true;
      return SuccessLocal;
    }

    /** `close_device`: v4l2_close on a copy of the descriptor, so
        `file_descriptor` keeps its value (it is not in the frame). */
    method CloseDevice(closeOk: bool) returns (s: Status)
      modifies this`requests
      ensures requests == old(requests) + (if fileDescriptor != -1 then [Close(fileDescriptor)] else [])
      ensures s == V4l2Close(fileDescriptor, closeOk)
    {
      if fileDescriptor != -1 {
        requests := requests + [Close(fileDescriptor)];
      }
      s := V4l2Close(fileDescriptor, closeOk);
    }

    /** `stop_device` (also run by the destructor): stop streaming, unmap,
        close; every step runs whatever the earlier ones returned. */
    method StopDevice(streamOff: IoctlResult, unmapped: seq<IoctlResult>, closeOk: bool)
      requires Valid()
      requires |unmapped| == bufferCount
      modifies this`requests, this`poolReleased, frameBuffers
      ensures Valid()
      ensures requests == old(requests)
                          + (if fileDescriptor != -1 then [StreamOff] else [])
                          + Sweep(UnmapOp, Attempts(LeadingDone(unmapped), bufferCount))
                          + (if fileDescriptor != -1 then [Close(fileDescriptor)] else [])
      ensures poolReleased == (old(poolReleased) || LeadingDone(unmapped) == bufferCount)
      ensures frameBuffers != null ==>
                forall i :: 0 <= i < frameBuffers.Length ==>
                  frameBuffers[i] == if i < LeadingDone(unmapped) then old(frameBuffers[i]).(mapped := false)
                                     else old(frameBuffers[i])
    {
      var _ := StopCapture(streamOff);
      var _ := UninitDevice(unmapped);
      var _ := CloseDevice(closeOk);
    }
  }
}
