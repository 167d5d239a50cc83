/** Runs of the encoder: any interleaving of frame submissions and encoded
    data retrievals, as a caller drives them, against any device that only
    hands back buffers it holds. */
module Replay {
  import opened Outcomes
  import opened Device
  import opened Pool
  import opened Encoder

  /** One call the caller makes, with the device's answers to it. */
  datatype Call =
    | Encode(reclaim: Dequeue, replies: SubmitReplies)
    | Retrieve(ready: Dequeue, requeueOk: bool)

  /** What one call reports back. */
  datatype Event =
    | Submitted(accepted: bool, streamOnIssued: bool)
    | Returned(bytes: nat)

  datatype Outcome = Outcome(encoder: Encoder, events: seq<Event>)

  datatype Stepped = Stepped(encoder: Encoder, event: Event)

  function Step(e: Encoder, c: Call): Result<Stepped, Fault> {
    match c
    case Encode(reclaim, replies) =>
      var s :- EncodeNV12(e, reclaim, replies);
      Success(Stepped(s.encoder, Submitted(s.accepted, s.streamOnIssued)))
    case Retrieve(ready, requeueOk) =>
      var g :- GetEncodedData(e, ready, requeueOk);
      Success(Stepped(g.encoder, Returned(g.bytes)))
  }

  /** Performs the calls in order, stopping at the first fault. */
  function Run(e: Encoder, calls: seq<Call>): Result<Outcome, Fault>
    decreases |calls|
  {
    if |calls| == 0 then Success(Outcome(e, []))
    else
      var first :- Step(e, calls[0]);
      var rest :- Run(first.encoder, calls[1..]);
      Success(Outcome(rest.encoder, [first.event] + rest.events))
  }

  /** A run that starts with call `c` performs `c`, then the rest. */
  lemma RunPrepend(e: Encoder, c: Call, rest: seq<Call>, first: Stepped, tail: Outcome)
    requires Step(e, c) == Success(first)
    requires Run(first.encoder, rest) == Success(tail)
    ensures Run(e, [c] + rest) == Success(Outcome(tail.encoder, [first.event] + tail.events))
  {
    assert ([c] + rest)[1..] == rest;
  }

  /** The device's dequeue answer in call `c` is one it can give in state `e`. */
  predicate CallPlausible(e: Encoder, c: Call) {
    match c
    case Encode(reclaim, _) => Plausible(reclaim, e.inputQueued)
    case Retrieve(ready, _) => Plausible(ready, e.outputQueued)
  }

  /** Every dequeue answer along the run is one the device can give then. */
  predicate Conforms(e: Encoder, calls: seq<Call>)
    decreases |calls|
  {
    |calls| == 0 ||
    (CallPlausible(e, calls[0]) &&
     (Step(e, calls[0]).Success? ==> Conforms(Step(e, calls[0]).value.encoder, calls[1..])))
  }

  /** How many times the input stream was started. */
  function StreamOns(events: seq<Event>): nat {
    if |events| == 0 then 0
    else (if events[0].Submitted? && events[0].streamOnIssued then 1 else 0) + StreamOns(events[1..])
  }

  /** Whether some submission was accepted. */
  predicate AnyAccepted(events: seq<Event>) {
    exists i :: 0 <= i < |events| && events[i].Submitted? && events[i].accepted
  }

  /** One call keeps the ownership invariant against a conforming device. */
  lemma StepPreservesValid(e: Encoder, c: Call)
    requires Valid(e)
    requires CallPlausible(e, c)
    ensures Step(e, c).Success? ==> Valid(Step(e, c).value.encoder)
  {
    if c.Encode? {
      EncodePreservesValid(e, c.reclaim, c.replies);
    }
  }

  /** Along any run against a conforming device: the ownership invariant holds
      at the end, the input stream flag only goes from false to true, it ends
      true exactly when it started true or some frame was accepted, and the
      input stream is started at most once (never, if it already ran). */
  lemma {:induction false} RunKeepsOwnership(e: Encoder, calls: seq<Call>)
    requires Valid(e)
    requires Conforms(e, calls)
    ensures Run(e, calls).Success? ==> Valid(Run(e, calls).value.encoder)
    ensures Run(e, calls).Success? ==>
              (Run(e, calls).value.encoder.streamActive <==>
                 e.streamActive || AnyAccepted(Run(e, calls).value.events))
    ensures Run(e, calls).Success? ==>
              StreamOns(Run(e, calls).value.events) ==
                (if !e.streamActive && Run(e, calls).value.encoder.streamActive then 1 else 0)
    decreases |calls|
  {
    if |calls| > 0 && Run(e, calls).Success? {
      StepPreservesValid(e, calls[0]);
      var first := Step(e, calls[0]).value;
      RunKeepsOwnership(first.encoder, calls[1..]);
      var rest := Run(first.encoder, calls[1..]).value;
      var events := [first.event] + rest.events;
      assert events[1..] == rest.events;
      if AnyAccepted(rest.events) {
        var i :| 0 <= i < |rest.events| && rest.events[i].Submitted? && rest.events[i].accepted;
        assert events[i + 1] == rest.events[i];
      }
      if first.event.Submitted? && first.event.accepted {
        assert events[0] == first.event;
      }
      if AnyAccepted(events) {
        var i :| 0 <= i < |events| && events[i].Submitted? && events[i].accepted;
        if i > 0 {
          assert rest.events[i - 1] == events[i];
        }
      }
    }
  }

  /** `n` retrievals while no output buffer is ready. */
  function IdlePolls(n: nat, requeueOk: bool): (calls: seq<Call>)
    ensures |calls| == n
  {
    if n == 0 then [] else [Retrieve(NotReady, requeueOk)] + IdlePolls(n - 1, requeueOk)
  }

  /** Draining is idempotent: polling any number of times while nothing is
      ready returns 0 every time and leaves the encoder as it was. */
  lemma {:induction false} IdlePollsChangeNothing(e: Encoder, n: nat, requeueOk: bool)
    ensures Run(e, IdlePolls(n, requeueOk)).Success?
    ensures Run(e, IdlePolls(n, requeueOk)).value.encoder == e
    ensures |Run(e, IdlePolls(n, requeueOk)).value.events| == n
    ensures forall i :: 0 <= i < n ==> Run(e, IdlePolls(n, requeueOk)).value.events[i] == Returned(0)
  {
    if n > 0 {
      IdlePollsChangeNothing(e, n - 1, requeueOk);
      var calls := IdlePolls(n, requeueOk);
      assert calls[1..] == IdlePolls(n - 1, requeueOk);
    }
  }
}
