/** The encoder's buffer-ownership state machine: which input indices wait in
    the free FIFO, which input and output indices the device holds, and
    whether the input stream has been started. Frame submission and encoded
    data retrieval are transitions of this state, parameterised by what the
    device answers. */
module Encoder {
  import opened Outcomes
  import opened Device
  import opened Pool

  /** Constructor arguments. Only width and height matter after setup. */
  datatype Config = Config(width: nat, height: nat, fps: nat, bitrate: nat, gop: nat)

  /** Bytes declared on plane 0 (luma) of every submitted NV12 frame. */
  function LumaBytes(cfg: Config): nat {
    cfg.width * cfg.height
  }

  /** Bytes declared on plane 1 (interleaved 4:2:0 chroma) of every submitted frame. */
  function ChromaBytes(cfg: Config): nat {
    cfg.width * cfg.height / 2
  }

  /** The encoder object. `freeInputBuffers` is the FIFO of input indices the
      caller owns, front first; `inputQueued` and `outputQueued` are the
      indices the device currently holds in each direction; `streamActive`
      says whether the input stream has been started. */
  datatype Encoder = Encoder(
    config: Config,
    inputBuffers: seq<Mapping>,
    outputBuffers: seq<Mapping>,
    freeInputBuffers: seq<nat>,
    inputQueued: set<nat>,
    outputQueued: set<nat>,
    outputStreaming: bool,
    streamActive: bool)

  /** The ownership invariant: each input index is either free (once) or held
      by the device, never both; every output index is held by the device. */
  predicate Valid(e: Encoder) {
    && |e.inputBuffers| <= BUFFER_COUNT
    && |e.outputBuffers| <= BUFFER_COUNT
    && NoDuplicates(e.freeInputBuffers)
    && Elems(e.freeInputBuffers) !! e.inputQueued
    && Elems(e.freeInputBuffers) + e.inputQueued == Range(|e.inputBuffers|)
    && e.outputQueued == Range(|e.outputBuffers|)
    && e.outputStreaming
  }

  /** A filled input buffer handed to the device with VIDIOC_QBUF. */
  datatype Submission = Submission(index: nat, bytesUsed0: nat, bytesUsed1: nat)

  /** The outcome of one frame submission: the new state, the boolean the
      caller sees, the buffer submitted (if any), and whether VIDIOC_STREAMON
      of the input queue was issued. */
  datatype EncodeStep = EncodeStep(
    encoder: Encoder,
    accepted: bool,
    submitted: Option<Submission>,
    streamOnIssued: bool)

  /** The outcome of one retrieval: the new state and the byte count returned. */
  datatype Retrieval = Retrieval(encoder: Encoder, bytes: nat)

  /** The indices a reclaim poll hands back. */
  function Reclaimed(d: Dequeue): seq<nat> {
    if d.Dequeued? then [d.index] else []
  }

  /** The reclaim poll: an input buffer the device has finished reading goes
      to the back of the free FIFO. */
  function Reclaim(e: Encoder, d: Dequeue): Encoder {
    match d
    case NotReady => e
    case Dequeued(i, _) =>
      e.(freeInputBuffers := e.freeInputBuffers + [i], inputQueued := e.inputQueued - {i})
  }

  /** Submits one NV12 frame. First reclaims at most one input buffer; then, if
      the FIFO is empty, declines; otherwise pops the front index, fills it,
      queues it to the device, and starts the input stream if this is the
      first submission. */
  function EncodeNV12(e: Encoder, reclaim: Dequeue, replies: SubmitReplies): (r: Result<EncodeStep, Fault>)
    ensures |e.freeInputBuffers + Reclaimed(reclaim)| == 0 ==>
              r == Success(EncodeStep(e, false, None, false))
    ensures |e.freeInputBuffers + Reclaimed(reclaim)| > 0 ==>
              (r.Failure? <==>
                 !replies.queryOk || !replies.queueOk || (!e.streamActive && !replies.streamOnOk))
    ensures r.Failure? ==>
              var fifo := e.freeInputBuffers + Reclaimed(reclaim);
              |fifo| > 0 &&
              r.error == (if !replies.queryOk then QueryBufferFailed(Input, fifo[0])
                          else if !replies.queueOk then QueueFailed(Input, fifo[0])
                          else StreamOnFailed(Input))
    ensures r.Success? ==>
              (r.value.accepted <==> |e.freeInputBuffers + Reclaimed(reclaim)| > 0) &&
              (r.value.accepted <==> r.value.submitted.Some?)
    ensures r.Success? && r.value.accepted ==>
              var fifo := e.freeInputBuffers + Reclaimed(reclaim);
              r.value.submitted == Some(Submission(fifo[0], LumaBytes(e.config), ChromaBytes(e.config))) &&
              r.value.encoder == e.(freeInputBuffers := fifo[1..],
                                    inputQueued := (e.inputQueued - Elems(Reclaimed(reclaim))) + {fifo[0]},
                                    streamActive := true)
    ensures r.Success? ==> (r.value.streamOnIssued <==> r.value.accepted && !e.streamActive)
  {
    var queue := Reclaim(e, reclaim);
    if |queue.freeInputBuffers| == 0 then
      Success(EncodeStep(queue, false, None, false))
    else
      var index := queue.freeInputBuffers[0];
      var popped := queue.(freeInputBuffers := queue.freeInputBuffers[1..]);
      if !replies.queryOk then
        Failure(QueryBufferFailed(Input, index))
      else
        var submission := Submission(index, LumaBytes(e.config), ChromaBytes(e.config));
        if !replies.queueOk then
          Failure(QueueFailed(Input, index))
        else
          var queued := popped.(inputQueued := popped.inputQueued + {index});
          if queued.streamActive then
            Success(EncodeStep(queued, true, Some(submission), false))
          else if !replies.streamOnOk then
            Failure(StreamOnFailed(Input))
          else
            Success(EncodeStep(queued.(streamActive := true), true, Some(submission), true))
  }

  /** Retrieves encoded data. When no output buffer is ready, returns 0 and
      changes nothing; otherwise returns the buffer's used byte count and
      queues the same index to the device again. */
  function GetEncodedData(e: Encoder, ready: Dequeue, requeueOk: bool): (r: Result<Retrieval, Fault>)
    ensures ready.NotReady? ==> r == Success(Retrieval(e, 0))
    ensures ready.Dequeued? ==> (r.Success? <==> requeueOk)
    ensures ready.Dequeued? && r.Failure? ==> r.error == QueueFailed(Output, ready.index)
    ensures ready.Dequeued? && r.Success? ==>
              r.value.bytes == ready.bytesUsed && ready.index in r.value.encoder.outputQueued
    ensures Plausible(ready, e.outputQueued) && r.Success? ==> r.value.encoder == e
  {
    match ready
    case NotReady => Success(Retrieval(e, 0))
    case Dequeued(i, used) =>
      var taken := e.(outputQueued := e.outputQueued - {i});
      if !requeueOk then
        Failure(QueueFailed(Output, i))
      else
        Success(Retrieval(taken.(outputQueued := taken.outputQueued + {i}), used))
  }

  /** Appending an index the FIFO does not hold keeps it duplicate-free. */
  lemma AppendKeepsNoDuplicates(s: seq<nat>, x: nat)
    requires NoDuplicates(s)
    requires x !in Elems(s)
    ensures NoDuplicates(s + [x])
    ensures Elems(s + [x]) == Elems(s) + {x}
  {
    var t := s + [x];
    forall i, j | 0 <= i < j < |t|
      ensures t[i] != t[j]
    {
      if j == |s| {
        assert t[i] == s[i] && s[i] in Elems(s);
      }
    }
  }

  /** Popping the front of a duplicate-free FIFO removes exactly that index. */
  lemma PopFrontRemovesOnlyFront(s: seq<nat>)
    requires |s| > 0
    requires NoDuplicates(s)
    ensures NoDuplicates(s[1..])
    ensures Elems(s[1..]) == Elems(s) - {s[0]}
  {
    forall x | x in Elems(s) - {s[0]}
      ensures x in Elems(s[1..])
    {
      var k :| 0 <= k < |s| && s[k] == x;
      assert s[1..][k - 1] == x;
    }
    forall x | x in Elems(s[1..])
      ensures x != s[0]
    {
      var k :| 0 <= k < |s[1..]| && s[1..][k] == x;
      assert s[k + 1] == x;
    }
  }

  /** The reclaim poll keeps the ownership invariant when the device only
      hands back an input index it holds. */
  lemma ReclaimPreservesValid(e: Encoder, reclaim: Dequeue)
    requires Valid(e)
    requires Plausible(reclaim, e.inputQueued)
    ensures Valid(Reclaim(e, reclaim))
  {
    if reclaim.Dequeued? {
      var i := reclaim.index;
      assert i !in Elems(e.freeInputBuffers);
      AppendKeepsNoDuplicates(e.freeInputBuffers, i);
    }
  }

  /** Frame submission keeps the ownership invariant when the device only
      hands back input indices it holds, and the buffer it fills is one the
      device does not hold at that moment. */
  lemma EncodePreservesValid(e: Encoder, reclaim: Dequeue, replies: SubmitReplies)
    requires Valid(e)
    requires Plausible(reclaim, e.inputQueued)
    ensures EncodeNV12(e, reclaim, replies).Success? ==> Valid(EncodeNV12(e, reclaim, replies).value.encoder)
    ensures EncodeNV12(e, reclaim, replies).Success? && EncodeNV12(e, reclaim, replies).value.accepted ==>
              var index := EncodeNV12(e, reclaim, replies).value.submitted.value.index;
              index < |e.inputBuffers| && index !in e.inputQueued - Elems(Reclaimed(reclaim))
  {
    ReclaimPreservesValid(e, reclaim);
    var queue := Reclaim(e, reclaim);
    if |queue.freeInputBuffers| > 0 {
      var fifo := queue.freeInputBuffers;
      PopFrontRemovesOnlyFront(fifo);
      assert fifo[0] in Elems(fifo);
    }
  }
}
