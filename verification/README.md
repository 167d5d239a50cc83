# Buffer ownership in the M2M hardware H.264 encoder

This project models the `M2M` encoder class of xu4enc (`M2M.h`). The class drives a
Linux V4L2 memory-to-memory, multi-planar encoder device through two buffer queues.
The *input* queue carries raw NV12 frames to the device; V4L2 calls it OUTPUT_MPLANE.
The *output* queue carries the H.264 stream back; V4L2 calls it CAPTURE_MPLANE.

The model keeps only the buffer-ownership state machine under the ioctls:

- **Pool creation.** The device may grant at most `BUFFER_COUNT` (4) buffers per direction.
  Every granted input index joins a FIFO of free indices. Every output index is queued to the device.
- **Frame submission** (`EncodeNV12`). It reclaims at most one finished input buffer to the back of the FIFO.
  If the FIFO is empty, it declines. Otherwise it fills and queues the FIFO's front index.
  The first accepted submission starts the input stream.
- **Retrieval** (`GetEncodedData`). It returns 0 when nothing is ready.
  Otherwise it returns the buffer's used byte count and queues the same index again.
- **Construction.** The device must report the multi-plane memory-to-memory bit and the streaming bit.
  The setup steps then run in a fixed order, and any refusal aborts construction.

The device is an oracle. Every ioctl outcome is a parameter of the model (`Device.Dequeue`,
`Device.SubmitReplies`, `Device.PoolDevice`, `Device.SetupDevice`). Exceptions become the
`Failure` arm of `Outcomes.Result`. A dequeue either reports `NotReady` or hands back an index.
The invariants assume `Device.Plausible`: a real device only hands back an index it holds.

Files: `outcomes.dfy` (Option/Result), `device.dfy` (oracle answers, faults, capability bits),
`pool.dfy` (pool creation), `encoder.dfy` (encoder state, submission, retrieval),
`session.dfy` (constructor), `replay.dfy` (arbitrary call sequences), `scenarios.dfy` (concrete runs).

## Model

| member | source | states |
|---|---|---|
| Pool.CreateInputBuffers | M2M.h:169-250 | Succeeds exactly when REQBUFS succeeds, grants at most 4, and every granted buffer can be queried and both planes mapped. A grant over 4 fails with TooManyBuffers. A smaller grant is kept as-is. Otherwise the fault is the first failing call, in call order. On success there is one mapping per index with the queried plane lengths, and the free FIFO is exactly 0, 1, ..., n-1 in order. |
| Pool.CreateOutputBuffers | M2M.h:273-349 | The same verdict for the output pool, where each buffer maps plane 0 only and is then queued. On success every output index 0..n-1 is queued to the device, and plane 1 stays unmapped (length 0). |
| Pool.CountingFifoIsPartition | M2M.h:195-237 | The FIFO 0, 1, ..., n-1 that input pool creation builds has no duplicates and holds exactly the indices 0..n-1. |
| Encoder.EncodeNV12 | M2M.h:526-613 | Let the FIFO after reclaim be the old FIFO plus the reclaimed index. If it is empty, the result is false, nothing is submitted, no stream is started, and the state is unchanged. Otherwise the call fails exactly when QUERYBUF, QBUF or the first STREAMON fails. On success the front index is submitted with plane byte counts width*height and width*height/2, the FIFO becomes the rest of it, and that index becomes device-held. The stream flag ends true, and STREAMON is issued exactly when the flag was false. |
| Encoder.GetEncodedData | M2M.h:616-655 | Nothing ready: returns 0 and the state is unchanged. Buffer ready: succeeds exactly when the requeue succeeds, and then returns the buffer's bytesused with the index device-held again. When the device held that index, the whole state is unchanged, so the held output set is the same before and after. |
| Encoder.ReclaimPreservesValid | M2M.h:539-547 | If the device returns only input indices it holds, appending the reclaimed index keeps the FIFO duplicate-free. It also keeps FIFO and device-held indices a disjoint cover of 0..n-1. |
| Encoder.EncodePreservesValid | M2M.h:539-595 | Under the same device assumption, a successful submission keeps the ownership invariant. The buffer it fills is one the device does not hold at that moment. |
| Encoder.AppendKeepsNoDuplicates | M2M.h:546 | Pushing an index the FIFO does not hold keeps the FIFO duplicate-free and adds exactly that index. |
| Encoder.PopFrontRemovesOnlyFront | M2M.h:560-561 | Popping the front of a duplicate-free FIFO removes exactly the front index. |
| Session.Construct | M2M.h:415-499 | Construction succeeds exactly when every setup step passes. On failure, every earlier step in the fixed order passed, and the fault is the one the first failing step raises. The order is open, query capabilities, capability check, input format, frame rate, profile, bitrate, GOP, input pool, output format, output pool, output STREAMON. A refused setting reports the configuration's own arguments, a failed pool reports that pool's first fault, and a failed output STREAMON reports the output direction. Missing either capability bit gives InsufficientCapabilities. A new encoder holds exactly the buffers the device granted in each direction, with the reported plane lengths. Its free FIFO is 0..n-1 in order, no input buffer is device-held, and every output buffer is. The output stream is started and the input stream is not. |
| Session.ConstructFromInputSettings | M2M.h:126-167 | Given that open, capability query and capability check passed, construction from the input settings on succeeds exactly when every later step passes. On failure, every step before the failing one passed, and the fault is the one that step raises. The input format, frame rate, profile, bitrate and GOP are checked in that order before either pool is made. A result is a new encoder for this configuration, holding the granted buffers of both pools. |
| Session.ConstructFromInputPool | M2M.h:169-250 | Given that every input setting was accepted, the same first-failing-step verdict holds from the input pool onward. A failed input pool is therefore the fault's step, its fault is the pool's first fault, and nothing after it is attempted. A result holds the granted buffers of both pools. |
| Session.ConstructFromOutputFormat | M2M.h:252-271 | Given an input pool whose FIFO is 0..n-1, the same verdict holds from the output format (sizeimage width*height*4) onward. A result carries that input pool's mappings and FIFO unchanged and holds the granted output buffers. |
| Session.ConstructFromOutputPool | M2M.h:489-498 | Given that the output format was accepted, the same verdict holds for the output pool and the output STREAMON. A result carries the given input pool unchanged and holds the granted output buffers, every one device-held. The output stream is started, the input stream is stopped, and the free FIFO is 0..n-1. |
| Replay.StepPreservesValid | M2M.h:526-655 | Against a device that only returns held indices, any single submit or retrieve keeps the ownership invariant. |
| Replay.RunKeepsOwnership | M2M.h:598-609 | Over any sequence of submits and retrieves against such a device, the invariant holds at the end. The input stream flag ends true exactly when it started true or some frame was accepted, so it never goes back to false. Input STREAMON is issued once if the flag went from false to true, and never otherwise. |
| Replay.IdlePollsChangeNothing | M2M.h:630-635 | Any number of retrievals while nothing is ready each return 0 and leave the encoder unchanged. |
| Scenarios.FifthSubmissionIsDeclined | M2M.h:551-555 | With four input buffers and a device that completes nothing, four submissions are accepted and the first starts the stream. The fifth is declined with nothing submitted. |
| Scenarios.ReclaimedIndexIsReused | M2M.h:539-561 | If the device finishes input buffer 0 after four submissions, the fifth reclaims index 0 and submits buffer 0 again. |
| Scenarios.ReadyOutputIsReturnedOnce | M2M.h:630-654 | A ready 1200-byte output buffer is returned as 1200 and re-queued. A second retrieval with nothing new returns 0. |

## Left out

- `EnumFormats` (M2M.h:351-410): diagnostic printing that feeds nothing. The disabled minimum-buffer query (M2M.h:454-483) is dead code.
- Format, frame-rate, profile, bitrate and GOP ioctls (M2M.h:60-167, 252-271): the device accepts or rejects each `Device.Setting`. Control IDs and values are not modelled beyond the setting's arguments.
- Memory mapping, `memcpy` and buffer contents: a mapping keeps only its plane lengths, and a submission keeps only its index and byte counts.
- The copy size is not checked against the mapped plane lengths (the TODO at M2M.h:578). The model records width*height and width*height/2 whatever the lengths are, as the source does.
- Opening the device node and the destructor's STREAMOFF/close (M2M.h:419-423, 501-523): opening is one yes/no answer, and teardown is not modelled.
- The state an encoder is left in after an exception is not modelled. Every exception is a fatal `Failure`, and no encoder is returned.
- `Config` takes width, height, fps, bitrate and GOP as unbounded naturals. C `int` overflow of width*height and negative arguments are not modelled.
- Encoder.GetEncodedData: returns `bytesUsed` as a natural. The source converts the 32-bit unsigned count to `int`, which would misread counts of 2^31 or more.
- The order in which the device completes buffers is not modelled. Any held index may be handed back (`Device.Plausible`).
- Every failed VIDIOC_DQBUF, whether it would block or is a real error, reads as nothing ready (M2M.h:539-543, 630-635), so the model has one `NotReady` outcome.
- Logging to stdout and stderr (the `printf` and `fprintf` calls, for example M2M.h:189, 293, 542, 553 and 633) is not modelled, because it does not change any state.
- `Scaler.h`: a wrapper over an external 2D-graphics library with no buffer-pool logic.
- `main.cpp`: file I/O and the write loop. It is also not a usable caller, since it passes three arguments to the five-argument constructor.
- `Exception.h`: it only prints its message, and faults here are plain values.
