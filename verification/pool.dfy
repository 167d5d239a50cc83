/** Buffer pools: asking the device for buffers in one direction, mapping each
    granted buffer, and putting it in its starting place. Input buffers start
    in the free-index FIFO; output buffers start queued to the device. */
module Pool {
  import opened Outcomes
  import opened Device

  /** The count requested from VIDIOC_REQBUFS in each direction, and the most
      the encoder's fixed index space accepts back. */
  const BUFFER_COUNT: nat := 4

  /** A buffer's mapped planes, kept by length only: the addresses mmap returns
      and the bytes behind them are not modelled. Output buffers map plane 0
      only, so their `length1` stays 0. */
  datatype Mapping = Mapping(length0: nat, length1: nat)

  /** A created input pool: one mapping per granted index and the FIFO of free
      indices, front first. */
  datatype InputPool = InputPool(buffers: seq<Mapping>, free: seq<nat>)

  /** A created output pool: one mapping per granted index and the set of
      indices queued to the device. */
  datatype OutputPool = OutputPool(buffers: seq<Mapping>, queued: set<nat>)

  /** The indices 0..n-1. */
  function Range(n: nat): (r: set<nat>)
    ensures forall i: nat :: i in r <==> i < n
  {
    if n == 0 then {} else Range(n - 1) + {n - 1}
  }

  /** The indices a FIFO holds. */
  function Elems(s: seq<nat>): set<nat> {
    set x | x in s
  }

  predicate NoDuplicates(s: seq<nat>) {
    forall i, j :: 0 <= i < j < |s| ==> s[i] != s[j]
  }

  /** The fault raised while setting up buffer `i`, if any, checking the calls
      in the order the source makes them: query, map plane 0, map plane 1
      (input only), queue (output only). */
  function BufferFault(dev: PoolDevice, dir: Direction, i: nat): Option<Fault> {
    if dev.layout(i).None? then Some(QueryBufferFailed(dir, i))
    else if !dev.mapOk(i, 0) then Some(MapFailed(dir, i, 0))
    else if dir == Input && !dev.mapOk(i, 1) then Some(MapFailed(dir, i, 1))
    else if dir == Output && !dev.queueOk(i) then Some(QueueFailed(dir, i))
    else None
  }

  /** Whether `f` is a fault pool creation in direction `dir` can raise. */
  predicate IsPoolFault(f: Fault, dir: Direction) {
    (f.RequestBuffersFailed? || f.TooManyBuffers? || f.QueryBufferFailed? ||
     f.MapFailed? || f.QueueFailed?) && f.dir == dir
  }

  /** The fault of the lowest index in from..count-1 that has one. */
  function FirstBufferFault(dev: PoolDevice, dir: Direction, from: nat, count: nat): (r: Option<Fault>)
    ensures r.Some? ==> IsPoolFault(r.value, dir)
    ensures r.None? <==> forall k :: from <= k < count ==> BufferFault(dev, dir, k).None?
    decreases count - from
  {
    if from >= count then None
    else if BufferFault(dev, dir, from).Some? then BufferFault(dev, dir, from)
    else FirstBufferFault(dev, dir, from + 1, count)
  }

  /** A granted count is accepted as-is when it is at most BUFFER_COUNT, even
      when it is smaller than the count requested. */
  function GrantedCount(dev: PoolDevice, dir: Direction): Result<nat, Fault> {
    match dev.granted
    case None => Failure(RequestBuffersFailed(dir))
    case Some(n) =>
      if n > BUFFER_COUNT then Failure(TooManyBuffers(dir, n)) else Success(n)
  }

  /** Reference definition of pool creation's verdict: the fault it raises, or
      None when the pool comes up. */
  function PoolFault(dev: PoolDevice, dir: Direction): (r: Option<Fault>)
    ensures r.Some? ==> IsPoolFault(r.value, dir)
  {
    match GrantedCount(dev, dir)
    case Failure(f) => Some(f)
    case Success(n) => FirstBufferFault(dev, dir, 0, n)
  }

  /** One input mapping per buffer the device granted, each with both plane
      lengths the device reported for that index. */
  predicate GrantedInputMappings(dev: PoolDevice, buffers: seq<Mapping>) {
    && dev.granted.Some?
    && |buffers| == dev.granted.value
    && forall k :: 0 <= k < |buffers| ==>
         dev.layout(k).Some? &&
         buffers[k] == Mapping(dev.layout(k).value.length0, dev.layout(k).value.length1)
  }

  /** One output mapping per buffer the device granted, with the plane 0 length
      the device reported for that index and plane 1 unmapped. */
  predicate GrantedOutputMappings(dev: PoolDevice, buffers: seq<Mapping>) {
    && dev.granted.Some?
    && |buffers| == dev.granted.value
    && forall k :: 0 <= k < |buffers| ==>
         dev.layout(k).Some? && buffers[k] == Mapping(dev.layout(k).value.length0, 0)
  }

  /** Creates the input pool: every granted index is queried and both of its
      planes mapped, then it joins the back of the free FIFO. Nothing is queued
      to the device. */
  method CreateInputBuffers(dev: PoolDevice) returns (r: Result<InputPool, Fault>)
    ensures r.Failure? <==> PoolFault(dev, Input).Some?
    ensures r.Failure? ==> r.error == PoolFault(dev, Input).value
    ensures dev.granted.Some? && dev.granted.value > BUFFER_COUNT ==>
              r == Failure(TooManyBuffers(Input, dev.granted.value))
    ensures r.Success? ==> GrantedInputMappings(dev, r.value.buffers) && |r.value.buffers| <= BUFFER_COUNT
    ensures r.Success? ==>
              |r.value.free| == |r.value.buffers| &&
              forall k :: 0 <= k < |r.value.free| ==> r.value.free[k] == k
  {
    var count :- GrantedCount(dev, Input);
    var buffers: seq<Mapping> := [];
    var free: seq<nat> := [];
    var i: nat := 0;
    while i < count
      invariant i <= count
      invariant |buffers| == i && |free| == i
      invariant forall k :: 0 <= k < i ==>
                  dev.layout(k).Some? &&
                  buffers[k] == Mapping(dev.layout(k).value.length0, dev.layout(k).value.length1)
      invariant forall k :: 0 <= k < i ==> free[k] == k
      invariant FirstBufferFault(dev, Input, 0, count) == FirstBufferFault(dev, Input, i, count)
    {
      var layout := dev.layout(i);
      if layout.None? {
        return Failure(QueryBufferFailed(Input, i));
      }
      if !dev.mapOk(i, 0) {
        return Failure(MapFailed(Input, i, 0));
      }
      if !dev.mapOk(i, 1) {
        return Failure(MapFailed(Input, i, 1));
      }
      buffers := buffers + [Mapping(layout.value.length0, layout.value.length1)];
      free := free + [i];
      i := i + 1;
    }
    return Success(InputPool(buffers, free));
  }

  /** Creates the output pool: every granted index is queried, its plane 0
      mapped, and the buffer queued to the device at once. */
  method CreateOutputBuffers(dev: PoolDevice) returns (r: Result<OutputPool, Fault>)
    ensures r.Failure? <==> PoolFault(dev, Output).Some?
    ensures r.Failure? ==> r.error == PoolFault(dev, Output).value
    ensures dev.granted.Some? && dev.granted.value > BUFFER_COUNT ==>
              r == Failure(TooManyBuffers(Output, dev.granted.value))
    ensures r.Success? ==> GrantedOutputMappings(dev, r.value.buffers) && |r.value.buffers| <= BUFFER_COUNT
    ensures r.Success? ==> r.value.queued == Range(|r.value.buffers|)
  {
    var count :- GrantedCount(dev, Output);
    var buffers: seq<Mapping> := [];
    var queued: set<nat> := {};
    var i: nat := 0;
    while i < count
      invariant i <= count
      invariant |buffers| == i
      invariant forall k :: 0 <= k < i ==>
                  dev.layout(k).Some? && buffers[k] == Mapping(dev.layout(k).value.length0, 0)
      invariant queued == Range(i)
      invariant FirstBufferFault(dev, Output, 0, count) == FirstBufferFault(dev, Output, i, count)
    {
      var layout := dev.layout(i);
      if layout.None? {
        return Failure(QueryBufferFailed(Output, i));
      }
      if !dev.mapOk(i, 0) {
        return Failure(MapFailed(Output, i, 0));
      }
      buffers := buffers + [Mapping(layout.value.length0, 0)];
      if !dev.queueOk(i) {
        return Failure(QueueFailed(Output, i));
      }
      queued := queued + {i};
      i := i + 1;
    }
    return Success(OutputPool(buffers, queued));
  }

  /** The FIFO 0, 1, ..., n-1 that input pool creation leaves behind has no
      duplicates and holds exactly the indices 0..n-1. */
  lemma CountingFifoIsPartition(free: seq<nat>)
    requires forall k :: 0 <= k < |free| ==> free[k] == k
    ensures NoDuplicates(free)
    ensures Elems(free) == Range(|free|)
  {
    forall x | x in Range(|free|)
      ensures x in Elems(free)
    {
      assert free[x] == x;
    }
  }
}
