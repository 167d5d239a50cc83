/** The memory-to-memory multi-planar streaming device (Linux V4L2), seen only
    through the answers it gives to the calls the encoder makes. Nothing here
    performs I/O: every ioctl outcome is a value the caller of the model
    chooses, and the model's properties hold for every choice (or for every
    choice a real device could make, where `Plausible` says so). */
module Device {
  import opened Outcomes

  /** Capability bits of `v4l2_capability.capabilities` (linux/videodev2.h). */
  const CAP_VIDEO_M2M_MPLANE: bv32 := 0x0000_4000
  const CAP_STREAMING: bv32 := 0x0400_0000

  /** The encoder needs both the multi-plane memory-to-memory bit and the
      streaming bit. */
  predicate HasRequiredCapabilities(caps: bv32) {
    caps & CAP_VIDEO_M2M_MPLANE != 0 && caps & CAP_STREAMING != 0
  }

  /** The two buffer queues of the device, named from the encoder's side.
      `Input` carries raw NV12 frames to the device (the V4L2 OUTPUT_MPLANE
      queue); `Output` carries the H.264 stream back (the CAPTURE_MPLANE queue). */
  datatype Direction = Input | Output

  /** One configuration request made by the constructor before any buffer
      exists. The device either accepts or rejects each one. */
  datatype Setting =
    | InputFormat(width: nat, height: nat)                  // NV12M, two planes
    | FrameRate(fps: nat)                                   // time per frame 1/fps
    | Profile                                               // H.264 Main, level 4.0
    | Bitrate(bitsPerSecond: nat)                           // frame rate control on
    | GroupOfPictures(size: nat)
    | OutputFormat(width: nat, height: nat, sizeImage: nat) // H.264

  /** Every condition the source raises as an exception. */
  datatype Fault =
    | OpenFailed
    | QueryCapabilitiesFailed
    | InsufficientCapabilities
    | SettingRejected(setting: Setting)
    | RequestBuffersFailed(dir: Direction)
    | TooManyBuffers(dir: Direction, granted: nat)
    | QueryBufferFailed(dir: Direction, index: nat)
    | MapFailed(dir: Direction, index: nat, plane: nat)
    | QueueFailed(dir: Direction, index: nat)
    | StreamOnFailed(dir: Direction)

  /** What a non-blocking dequeue (VIDIOC_DQBUF) reports. Any failure of the
      call, "would block" or a genuine error alike, reads as `NotReady`. */
  datatype Dequeue = NotReady | Dequeued(index: nat, bytesUsed: nat)

  /** A dequeue a real device can produce while it holds the indices `held`:
      it only ever hands back a buffer that was queued to it. */
  predicate Plausible(d: Dequeue, held: set<nat>) {
    d.NotReady? || d.index in held
  }

  /** Plane lengths reported by VIDIOC_QUERYBUF for one buffer index. */
  datatype Layout = Layout(length0: nat, length1: nat)

  /** The device's answers while one pool is created:
      `granted` is the count VIDIOC_REQBUFS writes back (None when the call fails),
      `layout` answers VIDIOC_QUERYBUF per index (None when it fails),
      `mapOk` says whether mmap of (index, plane) succeeds, and
      `queueOk` whether VIDIOC_QBUF of an index succeeds. */
  datatype PoolDevice = PoolDevice(
    granted: Option<nat>,
    layout: nat -> Option<Layout>,
    mapOk: (nat, nat) -> bool,
    queueOk: nat -> bool)

  /** The device's answers to the calls of one frame submission after the
      reclaim poll: VIDIOC_QUERYBUF, VIDIOC_QBUF and, on the first submission
      only, VIDIOC_STREAMON of the input queue. */
  datatype SubmitReplies = SubmitReplies(queryOk: bool, queueOk: bool, streamOnOk: bool)

  /** The device's answers to everything the constructor asks. */
  datatype SetupDevice = SetupDevice(
    opens: bool,
    capabilities: Option<bv32>,
    accepts: Setting -> bool,
    inputPool: PoolDevice,
    outputPool: PoolDevice,
    outputStreamOnOk: bool)
}
