/** Construction of the encoder: open the device, check its capabilities,
    configure both queues, create both pools, start the output stream. Any
    step the device refuses aborts construction, so no partially set-up
    encoder is ever returned. */
module Session {
  import opened Outcomes
  import opened Device
  import opened Pool
  import opened Encoder

  /** The constructor's steps. */
  datatype Stage =
    | OpenDevice
    | QueryCapabilities
    | CheckCapabilities
    | ApplyInputFormat
    | ApplyFrameRate
    | ApplyProfile
    | ApplyBitrate
    | ApplyGroupOfPictures
    | CreateInputPool
    | ApplyOutputFormat
    | CreateOutputPool
    | StartOutputStream

  /** The position of each step in the constructor's fixed order. */
  function Rank(s: Stage): nat {
    match s
    case OpenDevice => 0
    case QueryCapabilities => 1
    case CheckCapabilities => 2
    case ApplyInputFormat => 3
    case ApplyFrameRate => 4
    case ApplyProfile => 5
    case ApplyBitrate => 6
    case ApplyGroupOfPictures => 7
    case CreateInputPool => 8
    case ApplyOutputFormat => 9
    case CreateOutputPool => 10
    case StartOutputStream => 11
  }

  /** The buffer size requested for one compressed frame: four bytes per pixel. */
  function OutputSizeImage(cfg: Config): nat {
    cfg.width * cfg.height * 4
  }

  /** Whether the device lets step `s` succeed. */
  predicate Passes(dev: SetupDevice, cfg: Config, s: Stage) {
    match s
    case OpenDevice => dev.opens
    case QueryCapabilities => dev.capabilities.Some?
    case CheckCapabilities =>
      dev.capabilities.Some? && HasRequiredCapabilities(dev.capabilities.value)
    case ApplyInputFormat => dev.accepts(InputFormat(cfg.width, cfg.height))
    case ApplyFrameRate => dev.accepts(FrameRate(cfg.fps))
    case ApplyProfile => dev.accepts(Profile)
    case ApplyBitrate => dev.accepts(Bitrate(cfg.bitrate))
    case ApplyGroupOfPictures => dev.accepts(GroupOfPictures(cfg.gop))
    case CreateInputPool => PoolFault(dev.inputPool, Input).None?
    case ApplyOutputFormat => dev.accepts(OutputFormat(cfg.width, cfg.height, OutputSizeImage(cfg)))
    case CreateOutputPool => PoolFault(dev.outputPool, Output).None?
    case StartOutputStream => dev.outputStreamOnOk
  }

  /** The step a fault reports on. */
  function StageOf(f: Fault): Stage {
    match f
    case OpenFailed => OpenDevice
    case QueryCapabilitiesFailed => QueryCapabilities
    case InsufficientCapabilities => CheckCapabilities
    case SettingRejected(s) =>
      (match s
       case InputFormat(_, _) => ApplyInputFormat
       case FrameRate(_) => ApplyFrameRate
       case Profile => ApplyProfile
       case Bitrate(_) => ApplyBitrate
       case GroupOfPictures(_) => ApplyGroupOfPictures
       case OutputFormat(_, _, _) => ApplyOutputFormat)
    case RequestBuffersFailed(dir) => PoolStage(dir)
    case TooManyBuffers(dir, _) => PoolStage(dir)
    case QueryBufferFailed(dir, _) => PoolStage(dir)
    case MapFailed(dir, _, _) => PoolStage(dir)
    case QueueFailed(dir, _) => PoolStage(dir)
    case StreamOnFailed(_) => StartOutputStream
  }

  function PoolStage(dir: Direction): Stage {
    if dir == Input then CreateInputPool else CreateOutputPool
  }

  /** The state construction leaves an encoder in: the ownership invariant
      holds, every input index is free in order 0, 1, ..., none is held by the
      device, every output index is, the output stream is started and the
      input stream is not. */
  predicate Fresh(e: Encoder) {
    && Valid(e)
    && |e.freeInputBuffers| == |e.inputBuffers|
    && (forall k :: 0 <= k < |e.freeInputBuffers| ==> e.freeInputBuffers[k] == k)
    && e.inputQueued == {}
    && e.outputQueued == Range(|e.outputBuffers|)
    && e.outputStreaming
    && !e.streamActive
  }

  /** The pools as creation leaves them make a fresh encoder. */
  lemma NewEncoderIsFresh(cfg: Config, input: InputPool, output: OutputPool)
    requires |input.buffers| <= BUFFER_COUNT && |output.buffers| <= BUFFER_COUNT
    requires |input.free| == |input.buffers|
    requires forall k :: 0 <= k < |input.free| ==> input.free[k] == k
    requires output.queued == Range(|output.buffers|)
    ensures Fresh(Encoder(cfg, input.buffers, output.buffers, input.free, {}, output.queued, true, false))
  {
    CountingFifoIsPartition(input.free);
  }

  /** The fault the constructor raises when step `s` fails: the refused
      setting with the configuration's own arguments, the pool's first fault,
      or the output STREAMON failure. */
  function ExpectedFault(dev: SetupDevice, cfg: Config, s: Stage): Fault
    requires !Passes(dev, cfg, s)
  {
    match s
    case OpenDevice => OpenFailed
    case QueryCapabilities => QueryCapabilitiesFailed
    case CheckCapabilities => InsufficientCapabilities
    case ApplyInputFormat => SettingRejected(InputFormat(cfg.width, cfg.height))
    case ApplyFrameRate => SettingRejected(FrameRate(cfg.fps))
    case ApplyProfile => SettingRejected(Profile)
    case ApplyBitrate => SettingRejected(Bitrate(cfg.bitrate))
    case ApplyGroupOfPictures => SettingRejected(GroupOfPictures(cfg.gop))
    case CreateInputPool => PoolFault(dev.inputPool, Input).value
    case ApplyOutputFormat => SettingRejected(OutputFormat(cfg.width, cfg.height, OutputSizeImage(cfg)))
    case CreateOutputPool => PoolFault(dev.outputPool, Output).value
    case StartOutputStream => StreamOnFailed(Output)
  }

  /** The verdict of construction, in terms of the steps: it succeeds exactly
      when every step passes; otherwise its fault is the one the first failing
      step raises, and every step before it in the constructor's order passes. */
  predicate FirstFailingStep(dev: SetupDevice, cfg: Config, r: Result<Encoder, Fault>) {
    && (r.Success? <==> forall s :: Passes(dev, cfg, s))
    && (r.Failure? ==>
          && !Passes(dev, cfg, StageOf(r.error))
          && (forall s :: Rank(s) < Rank(StageOf(r.error)) ==> Passes(dev, cfg, s))
          && r.error == ExpectedFault(dev, cfg, StageOf(r.error)))
  }

  /** The encoder holds exactly the buffers the device granted in each
      direction, mapped with the lengths the device reported. */
  predicate Built(dev: SetupDevice, e: Encoder) {
    GrantedInputMappings(dev.inputPool, e.inputBuffers) &&
    GrantedOutputMappings(dev.outputPool, e.outputBuffers)
  }

  /** Builds an encoder. Succeeds exactly when every step passes; otherwise the
      fault is the one raised by the first step, in the constructor's order,
      that fails. A new encoder holds the granted buffers of both pools, has
      every input index free in order 0, 1, ..., every output index queued,
      the output stream started and the input stream not. */
  method Construct(cfg: Config, dev: SetupDevice) returns (r: Result<Encoder, Fault>)
    ensures r.Success? <==> forall s :: Passes(dev, cfg, s)
    ensures r.Failure? ==>
              !Passes(dev, cfg, StageOf(r.error)) &&
              (forall s :: Rank(s) < Rank(StageOf(r.error)) ==> Passes(dev, cfg, s)) &&
              r.error == ExpectedFault(dev, cfg, StageOf(r.error))
    ensures dev.opens && dev.capabilities.Some? && !HasRequiredCapabilities(dev.capabilities.value) ==>
              r == Failure(InsufficientCapabilities)
    ensures r.Success? ==> Fresh(r.value) && Built(dev, r.value) && r.value.config == cfg
  {
    if !dev.opens {
      assert !Passes(dev, cfg, OpenDevice);
      return Failure(OpenFailed);
    }
    if dev.capabilities.None? {
      assert !Passes(dev, cfg, QueryCapabilities);
      return Failure(QueryCapabilitiesFailed);
    }
    if !HasRequiredCapabilities(dev.capabilities.value) {
      assert !Passes(dev, cfg, CheckCapabilities);
      return Failure(InsufficientCapabilities);
    }
    r := ConstructFromInputSettings(cfg, dev);
  }

  /** Construction from the input settings through to the output STREAMON,
      once the device is open and capable: configure the input queue and the
      encoding controls, stopping at the first setting the device rejects
      (input format, frame rate, profile, bitrate, group of pictures), then
      continue with the pools. */
  method ConstructFromInputSettings(cfg: Config, dev: SetupDevice) returns (r: Result<Encoder, Fault>)
    requires forall s :: Rank(s) < Rank(ApplyInputFormat) ==> Passes(dev, cfg, s)
    ensures FirstFailingStep(dev, cfg, r)
    ensures r.Success? ==> Fresh(r.value) && Built(dev, r.value) && r.value.config == cfg
  {
    if !dev.accepts(InputFormat(cfg.width, cfg.height)) {
      assert !Passes(dev, cfg, ApplyInputFormat);
      return Failure(SettingRejected(InputFormat(cfg.width, cfg.height)));
    }
    if !dev.accepts(FrameRate(cfg.fps)) {
      assert !Passes(dev, cfg, ApplyFrameRate);
      return Failure(SettingRejected(FrameRate(cfg.fps)));
    }
    if !dev.accepts(Profile) {
      assert !Passes(dev, cfg, ApplyProfile);
      return Failure(SettingRejected(Profile));
    }
    if !dev.accepts(Bitrate(cfg.bitrate)) {
      assert !Passes(dev, cfg, ApplyBitrate);
      return Failure(SettingRejected(Bitrate(cfg.bitrate)));
    }
    if !dev.accepts(GroupOfPictures(cfg.gop)) {
      assert !Passes(dev, cfg, ApplyGroupOfPictures);
      return Failure(SettingRejected(GroupOfPictures(cfg.gop)));
    }
    r := ConstructFromInputPool(cfg, dev);
  }

  /** Construction from the input pool through to the output STREAMON: create
      the input pool, then continue with the output side. */
  method ConstructFromInputPool(cfg: Config, dev: SetupDevice) returns (r: Result<Encoder, Fault>)
    requires forall s :: Rank(s) < Rank(CreateInputPool) ==> Passes(dev, cfg, s)
    ensures FirstFailingStep(dev, cfg, r)
    ensures r.Success? ==> Fresh(r.value) && Built(dev, r.value) && r.value.config == cfg
  {
    var inputPool := CreateInputBuffers(dev.inputPool);
    if inputPool.Failure? {
      assert !Passes(dev, cfg, CreateInputPool);
      return Failure(inputPool.error);
    }
    assert Passes(dev, cfg, CreateInputPool);
    r := ConstructFromOutputFormat(cfg, dev, inputPool.value);
  }

  /** Construction from the output format through to the output STREAMON,
      once the input pool exists: configure the output queue, then continue
      with the output pool. The input pool is carried into the encoder. */
  method ConstructFromOutputFormat(cfg: Config, dev: SetupDevice, input: InputPool) returns (r: Result<Encoder, Fault>)
    requires forall s :: Rank(s) <= Rank(CreateInputPool) ==> Passes(dev, cfg, s)
    requires |input.buffers| <= BUFFER_COUNT && |input.free| == |input.buffers|
    requires forall k :: 0 <= k < |input.free| ==> input.free[k] == k
    ensures FirstFailingStep(dev, cfg, r)
    ensures r.Success? ==> Fresh(r.value) && r.value.config == cfg
    ensures r.Success? ==>
              r.value.inputBuffers == input.buffers && r.value.freeInputBuffers == input.free &&
              GrantedOutputMappings(dev.outputPool, r.value.outputBuffers)
  {
    var outputFormat := OutputFormat(cfg.width, cfg.height, OutputSizeImage(cfg));
    if !dev.accepts(outputFormat) {
      assert !Passes(dev, cfg, ApplyOutputFormat);
      return Failure(SettingRejected(outputFormat));
    }
    assert Passes(dev, cfg, ApplyOutputFormat);
    r := ConstructFromOutputPool(cfg, dev, input);
  }

  /** The last steps of construction: create the output pool, queuing every
      output buffer, and start the output stream. The input pool is carried
      into the encoder and the input stream is left stopped. */
  method ConstructFromOutputPool(cfg: Config, dev: SetupDevice, input: InputPool) returns (r: Result<Encoder, Fault>)
    requires forall s :: Rank(s) <= Rank(ApplyOutputFormat) ==> Passes(dev, cfg, s)
    requires |input.buffers| <= BUFFER_COUNT && |input.free| == |input.buffers|
    requires forall k :: 0 <= k < |input.free| ==> input.free[k] == k
    ensures FirstFailingStep(dev, cfg, r)
    ensures r.Success? ==> Fresh(r.value) && r.value.config == cfg
    ensures r.Success? ==>
              r.value.inputBuffers == input.buffers && r.value.freeInputBuffers == input.free &&
              GrantedOutputMappings(dev.outputPool, r.value.outputBuffers)
  {
    var outputPool := CreateOutputBuffers(dev.outputPool);
    if outputPool.Failure? {
      assert !Passes(dev, cfg, CreateOutputPool);
      return Failure(outputPool.error);
    }
    var output := outputPool.value;
    if !dev.outputStreamOnOk {
      assert !Passes(dev, cfg, StartOutputStream);
      return Failure(StreamOnFailed(Output));
    }
    NewEncoderIsFresh(cfg, input, output);
    return Success(Encoder(cfg, input.buffers, output.buffers, input.free, {}, output.queued, true, false));
  }
}
