/** Concrete runs of a freshly built encoder with four buffers per direction. */
module Scenarios {
  import opened Outcomes
  import opened Device
  import opened Pool
  import opened Encoder
  import opened Replay
  import opened Session

  const Frame720p: Config := Config(1280, 720, 30, 5_000_000, 10)

  /** An encoder as construction leaves it when the device grants four buffers
      in each direction. */
  function FreshEncoder(): (e: Encoder)
    ensures Fresh(e)
  {
    var m := Mapping(1280 * 720, 1280 * 720 / 2);
    Encoder(Frame720p, [m, m, m, m], [Mapping(1280 * 720 * 4, 0), Mapping(1280 * 720 * 4, 0),
                                      Mapping(1280 * 720 * 4, 0), Mapping(1280 * 720 * 4, 0)],
            [0, 1, 2, 3], {}, Range(4), true, false)
  }

  const DeviceAccepts: SubmitReplies := SubmitReplies(true, true, true)

  /** Four back-to-back submissions to a device that completes nothing. */
  function FillPool(): seq<Call> {
    [Encode(NotReady, DeviceAccepts), Encode(NotReady, DeviceAccepts),
     Encode(NotReady, DeviceAccepts), Encode(NotReady, DeviceAccepts)]
  }

  /** The encoder after `k` of the four submissions of `FillPool`. */
  function Filled(k: nat): Encoder
    requires 1 <= k <= 4
  {
    var e := FreshEncoder();
    if k == 1 then e.(freeInputBuffers := [1, 2, 3], inputQueued := {0}, streamActive := true)
    else if k == 2 then e.(freeInputBuffers := [2, 3], inputQueued := {0, 1}, streamActive := true)
    else if k == 3 then e.(freeInputBuffers := [3], inputQueued := {0, 1, 2}, streamActive := true)
    else e.(freeInputBuffers := [], inputQueued := {0, 1, 2, 3}, streamActive := true)
  }

  /** The four submissions of `FillPool`, one at a time. */
  lemma FillPoolSteps()
    ensures Step(FreshEncoder(), Encode(NotReady, DeviceAccepts)) ==
              Success(Stepped(Filled(1), Submitted(true, true)))
    ensures Step(Filled(1), Encode(NotReady, DeviceAccepts)) ==
              Success(Stepped(Filled(2), Submitted(true, false)))
    ensures Step(Filled(2), Encode(NotReady, DeviceAccepts)) ==
              Success(Stepped(Filled(3), Submitted(true, false)))
    ensures Step(Filled(3), Encode(NotReady, DeviceAccepts)) ==
              Success(Stepped(Filled(4), Submitted(true, false)))
  {
    assert {} + {0} == {0};
    assert {0} + {1} == {0, 1};
    assert {0, 1} + {2} == {0, 1, 2};
    assert {0, 1, 2} + {3} == {0, 1, 2, 3};
    assert [0, 1, 2, 3][1..] == [1, 2, 3];
    assert [1, 2, 3][1..] == [2, 3];
    assert [2, 3][1..] == [3];
    assert [3][1..] == [];
  }

  /** Five calls run one after another, whatever the states in between. */
  lemma RunFive(e0: Encoder, e1: Encoder, e2: Encoder, e3: Encoder, e4: Encoder,
                c: Call, last: Call, first: Event, t: Event, after: Stepped)
    requires Step(e0, c) == Success(Stepped(e1, first))
    requires Step(e1, c) == Success(Stepped(e2, t))
    requires Step(e2, c) == Success(Stepped(e3, t))
    requires Step(e3, c) == Success(Stepped(e4, t))
    requires Step(e4, last) == Success(after)
    ensures Run(e0, [c] + ([c] + ([c] + ([c] + ([last] + []))))) ==
              Success(Outcome(after.encoder, [first] + ([t] + ([t] + ([t] + ([after.event] + []))))))
  {
    var o5 := Outcome(after.encoder, []);
    assert Run(after.encoder, []) == Success(o5);
    var o4 := Outcome(after.encoder, [after.event] + o5.events);
    RunPrepend(e4, last, [], after, o5);
    var o3 := Outcome(after.encoder, [t] + o4.events);
    RunPrepend(e3, c, [last] + [], Stepped(e4, t), o4);
    var o2 := Outcome(after.encoder, [t] + o3.events);
    RunPrepend(e2, c, [c] + ([last] + []), Stepped(e3, t), o3);
    var o1 := Outcome(after.encoder, [t] + o2.events);
    RunPrepend(e1, c, [c] + ([c] + ([last] + [])), Stepped(e2, t), o2);
    RunPrepend(e0, c, [c] + ([c] + ([c] + ([last] + []))), Stepped(e1, first), o1);
  }

  /** Five-element sequences written as nested concatenations. */
  lemma Nested(c: Call, last: Call, first: Event, t: Event, end: Event)
    ensures [c, c, c, c] + [last] == [c] + ([c] + ([c] + ([c] + ([last] + []))))
    ensures [first] + ([t] + ([t] + ([t] + ([end] + [])))) == [first, t, t, t, end]
  {
  }

  /** Runs `FillPool` followed by `last` from a fresh encoder, given how `last`
      goes when all four input buffers are held by the device. */
  lemma FillPoolThen(last: Call, after: Stepped)
    requires Step(Filled(4), last) == Success(after)
    ensures Run(FreshEncoder(), FillPool() + [last]) ==
              Success(Outcome(after.encoder,
                              [Submitted(true, true), Submitted(true, false), Submitted(true, false),
                               Submitted(true, false), after.event]))
  {
    var c := Encode(NotReady, DeviceAccepts);
    FillPoolSteps();
    var t := Submitted(true, false);
    RunFive(FreshEncoder(), Filled(1), Filled(2), Filled(3), Filled(4), c, last,
            Submitted(true, true), t, after);
    Nested(c, last, Submitted(true, true), t, after.event);
    assert FillPool() == [c, c, c, c];
  }

  /** Five submissions to a device that never completes an input buffer: the
      first four are accepted (the first starting the input stream) and the
      fifth is declined, with the input FIFO empty and all four indices held
      by the device. */
  lemma FifthSubmissionIsDeclined()
    ensures var r := Run(FreshEncoder(), FillPool() + [Encode(NotReady, DeviceAccepts)]);
            r.Success? &&
            r.value.events == [Submitted(true, true), Submitted(true, false), Submitted(true, false),
                               Submitted(true, false), Submitted(false, false)] &&
            r.value.encoder.freeInputBuffers == [] &&
            r.value.encoder.inputQueued == {0, 1, 2, 3}
  {
    FillPoolThen(Encode(NotReady, DeviceAccepts), Stepped(Filled(4), Submitted(false, false)));
  }

  /** When the device finishes input buffer 0 after the fourth submission, the
      fifth submission reclaims index 0 and fills that same buffer again. */
  lemma ReclaimedIndexIsReused()
    ensures EncodeNV12(Filled(4), Dequeued(0, 0), DeviceAccepts).value.submitted ==
              Some(Submission(0, 1280 * 720, 1280 * 720 / 2))
    ensures var r := Run(FreshEncoder(), FillPool() + [Encode(Dequeued(0, 0), DeviceAccepts)]);
            r.Success? &&
            |r.value.events| == 5 &&
            r.value.events[4] == Submitted(true, false) &&
            r.value.encoder == Filled(4)
  {
    assert {0, 1, 2, 3} - {0} + {0} == {0, 1, 2, 3};
    assert ([] + [0])[1..] == [];
    FillPoolThen(Encode(Dequeued(0, 0), DeviceAccepts), Stepped(Filled(4), Submitted(true, false)));
  }

  /** A ready output buffer of 1200 bytes is returned and re-queued at once; a
      second retrieval before any new completion returns 0. */
  lemma ReadyOutputIsReturnedOnce()
    ensures var r := Run(FreshEncoder(), [Retrieve(Dequeued(2, 1200), true), Retrieve(NotReady, true)]);
            r.Success? &&
            r.value.events == [Returned(1200), Returned(0)] &&
            r.value.encoder.outputQueued == {0, 1, 2, 3}
  {
    var calls := [Retrieve(Dequeued(2, 1200), true), Retrieve(NotReady, true)];
    assert calls[1..][1..] == [];
  }
}
