/** Bounded memory, freedom from deadlock and progress of the streamed body. */
module BodyBounds {
  import opened Wrappers
  import opened Chunks
  import opened BodyProtocol
  import opened BodyProofs

  // ----- Memory -----

  /** No data frame is longer than `size`. */
  ghost predicate FramesFit(frames: seq<Frame>, size: nat) {
    forall f <- frames :: f.Data? ==> |f.bytes| <= size
  }

  /** The most bytes that one batch can hold. */
  function BatchBound(limit: nat, size: nat): nat {
    Max(limit, 1) - 1 + size
  }

  predicate MessageFits(m: Message, bound: nat) {
    m.Batch? ==> |Flat(m.chunks)| <= bound
  }

  ghost predicate LinkFits(l: Link, limit: nat, size: nat) {
    && l.limit == limit
    && FramesFit(l.source.frames, size)
    && (forall m <- l.queue :: MessageFits(m, BatchBound(limit, size)))
    && (l.task.Sending? ==> MessageFits(l.task.msg, BatchBound(limit, size)))
  }

  ghost predicate Fits(s: State, limit: nat, size: nat) {
    && |Flat(s.pending)| + s.lastTaken <= BatchBound(limit, size)
    && (s.link.Some? ==> LinkFits(s.link.value, limit, size))
  }

  /** Bytes held by the reader task: its batch, and the message it waits to send. */
  function TaskBytes(l: Link): nat {
    (if l.buffer.Some? then |Flat(l.buffer.value)| else 0)
    + (if l.task.Sending? && l.task.msg.Batch? then |Flat(l.task.msg.chunks)| else 0)
  }

  /** Bytes held for the consumer: pending chunks, channel slots and the reader task. */
  function HeldBytes(s: State): nat {
    |Flat(s.pending)|
    + (if s.link.Some? then |Flat(QueuedChunks(s.link.value.queue))| + TaskBytes(s.link.value) else 0)
  }

  lemma {:induction false} PrefetchFits(source: Source, limit: nat, size: nat, consumed: nat)
    requires FramesFit(source.frames, size) && consumed < limit
    ensures match PrefetchUpTo(source, Some(limit), consumed)
            case PrefetchFailed => true
            case Fetched(chunks, _, rest) =>
              consumed + |Flat(chunks)| <= BatchBound(limit, size) && FramesFit(rest.frames, size)
    decreases |source.frames|
  {
    if source.frames != [] {
      var rest := source.(frames := source.frames[1..]);
      var f := source.frames[0];
      assert f in source.frames;
      if f.Data? {
        FlatOne(f.bytes);
        if consumed + |f.bytes| < limit {
          PrefetchFits(rest, limit, size, consumed + |f.bytes|);
          var more := PrefetchUpTo(rest, Some(limit), consumed + |f.bytes|);
          if more.Fetched? {
            assert ([f.bytes] + more.chunks)[1..] == more.chunks;
          }
        }
      } else {
        PrefetchFits(rest, limit, size, consumed);
      }
    }
  }

  lemma PollFrameFits(l: Link, limit: nat, size: nat)
    requires LinkInv(l) && LinkFits(l, limit, size) && l.task.Polling?
    ensures LinkFits(PollFrame(l), limit, size)
  {
    if l.source.frames != [] {
      var f := l.source.frames[0];
      assert f in l.source.frames;
      if f.Data? {
        FlatAppend(l.buffer.value, [f.bytes]);
        FlatOne(f.bytes);
      }
    }
  }

  lemma CompleteSendFits(l: Link, limit: nat, size: nat)
    requires LinkInv(l) && LinkFits(l, limit, size) && l.task.Sending?
    ensures LinkFits(CompleteSend(l), limit, size)
  {
  }

  lemma FrameArrivesFits(s: State, limit: nat, size: nat)
    requires Fits(s, limit, size) && s.link.Some? && LinkInv(s.link.value)
    ensures Fits(Apply(s, FrameArrives), limit, size)
  {
    if s.link.value.task.Polling? {
      PollFrameFits(s.link.value, limit, size);
    }
  }

  lemma SendProceedsFits(s: State, limit: nat, size: nat)
    requires Fits(s, limit, size) && s.link.Some? && LinkInv(s.link.value)
    ensures Fits(Apply(s, SendProceeds), limit, size)
  {
    if s.link.value.task.Sending? {
      CompleteSendFits(s.link.value, limit, size);
    }
  }

  lemma ReceiveFits(s: State, limit: nat, size: nat)
    requires Fits(s, limit, size) && CanReceive(s)
    ensures Fits(Apply(s, Receive), limit, size)
  {
    var queue := s.link.value.queue;
    assert queue[0] in queue;
    assert forall m <- queue[1..] :: m in queue;
  }

  lemma TakeFits(s: State, limit: nat, size: nat)
    requires Fits(s, limit, size) && s.pending != []
    ensures Fits(Apply(s, Take), limit, size)
  {
  }

  lemma PutBackFits(s: State, count: nat, limit: nat, size: nat)
    requires Fits(s, limit, size) && 0 < count <= s.lastTaken <= |s.hand|
    ensures Fits(Apply(s, PutBack(count)), limit, size)
  {
    FlatOne(s.hand[|s.hand| - count..]);
    FlatAppend([s.hand[|s.hand| - count..]], s.pending);
  }

  lemma OtherFits(s: State, step: Step, limit: nat, size: nat)
    requires Fits(s, limit, size)
    requires !step.FrameArrives? && !step.SendProceeds? && !step.Receive? && !step.Take? && !step.PutBack?
    ensures Fits(Apply(s, step), limit, size)
  {
  }

  lemma StepFits(whole: Source, s: State, step: Step, limit: nat, size: nat)
    requires Inv(whole, s) && Fits(s, limit, size)
    ensures Fits(Apply(s, step), limit, size)
  {
    match step
    case FrameArrives => if s.link.Some? { FrameArrivesFits(s, limit, size); }
    case SendProceeds => if s.link.Some? { SendProceedsFits(s, limit, size); }
    case Receive => if CanReceive(s) { ReceiveFits(s, limit, size); }
    case Take => if s.pending != [] { TakeFits(s, limit, size); }
    case PutBack(count) => if 0 < count <= s.lastTaken <= |s.hand| { PutBackFits(s, count, limit, size); }
    case _ => OtherFits(s, step, limit, size);
  }

  lemma {:induction false} QueueBytes(queue: seq<Message>, bound: nat)
    requires forall m <- queue :: MessageFits(m, bound)
    requires |queue| <= CHANNEL_CAPACITY
    ensures |Flat(QueuedChunks(queue))| <= (if |queue| == 0 then 0 else if |queue| == 1 then bound else 2 * bound)
  {
    if queue != [] {
      assert queue[0] in queue;
      QueueBytes(queue[1..], bound);
      FlatAppend(MessageChunks(queue[0]), QueuedChunks(queue[1..]));
    }
  }

  lemma TaskFits(l: Link, limit: nat, size: nat)
    requires LinkInv(l) && LinkFits(l, limit, size)
    ensures TaskBytes(l) <= BatchBound(limit, size)
  {
  }

  lemma FitsHeld(whole: Source, s: State, limit: nat, size: nat)
    requires Inv(whole, s) && Fits(s, limit, size)
    ensures HeldBytes(s) <= 4 * BatchBound(limit, size)
  {
    if s.link.Some? {
      var bound := BatchBound(limit, size);
      QueueBytes(s.link.value.queue, bound);
      TaskFits(s.link.value, limit, size);
      assert |Flat(s.pending)| <= bound;
    }
  }

  lemma {:induction false} RunFits(source: Source, limit: nat, size: nat, trace: seq<Step>, s: State)
    requires FramesFit(source.frames, size) && IsRun(source, Streamed(limit), trace, s)
    ensures Fits(s, limit, size)
  {
    var start := Start(source, Streamed(limit)).value;
    if trace == [] {
      if limit > 0 {
        PrefetchFits(source, limit, size, 0);
      }
    } else {
      var before := trace[..|trace| - 1];
      RunFits(source, limit, size, before, Replay(start, before));
      Reachable(source, Streamed(limit), before, Replay(start, before));
      StepFits(source, Replay(start, before), trace[|trace| - 1], limit, size);
    }
  }

  /** In every reachable state at most four batches are held, and the task's byte count is exact. */
  lemma MemoryBound(source: Source, limit: nat, size: nat, trace: seq<Step>, s: State)
    requires FramesFit(source.frames, size) && IsRun(source, Streamed(limit), trace, s)
    ensures HeldBytes(s) <= 4 * (Max(limit, 1) - 1 + size)
    ensures s.link.Some? && s.link.value.buffer.Some? ==>
              s.link.value.totBytes == |Flat(s.link.value.buffer.value)|
  {
    RunFits(source, limit, size, trace, s);
    Reachable(source, Streamed(limit), trace, s);
    FitsHeld(source, s, limit, size);
  }

  // ----- Batching -----

  predicate FullBatch(m: Message, limit: nat) {
    m.Batch? ==> |Flat(m.chunks)| >= limit
  }

  /** Only the last message of a task that has ended may be a batch below the limit. */
  predicate Batched(l: Link, limit: nat) {
    && l.limit == limit
    && (forall k | 0 <= k < |l.queue| :: FullBatch(l.queue[k], limit) || (k == |l.queue| - 1 && l.task.Ended?))
    && (l.task.Sending? && !l.task.last ==> FullBatch(l.task.msg, limit))
  }

  lemma PollFrameBatched(l: Link, limit: nat)
    requires LinkInv(l) && Batched(l, limit) && l.task.Polling?
    ensures Batched(PollFrame(l), limit)
  {
    if l.source.frames != [] && l.source.frames[0].Data? {
      FlatAppend(l.buffer.value, [l.source.frames[0].bytes]);
      FlatOne(l.source.frames[0].bytes);
    }
  }

  lemma CompleteSendBatched(l: Link, limit: nat)
    requires LinkInv(l) && Batched(l, limit) && l.task.Sending?
    ensures Batched(CompleteSend(l), limit)
  {
    if l.rxOpen && |l.queue| < CHANNEL_CAPACITY {
      var queue := l.queue + [l.task.msg];
      assert forall k | 0 <= k < |l.queue| :: FullBatch(queue[k], limit);
    }
  }

  lemma ReceiveBatched(l: Link, limit: nat)
    requires Batched(l, limit) && l.queue != []
    ensures Batched(l.(queue := l.queue[1..]), limit)
  {
    forall k | 0 <= k < |l.queue| - 1
      ensures FullBatch(l.queue[1..][k], limit) || (k == |l.queue| - 2 && l.task.Ended?)
    {
      assert FullBatch(l.queue[k + 1], limit) || (k + 1 == |l.queue| - 1 && l.task.Ended?);
    }
  }

  lemma StepBatched(whole: Source, s: State, step: Step, limit: nat)
    requires Inv(whole, s) && s.link.Some? && Batched(s.link.value, limit)
    ensures Apply(s, step).link.Some? && Batched(Apply(s, step).link.value, limit)
  {
    match step
    case FrameArrives => if s.link.value.task.Polling? { PollFrameBatched(s.link.value, limit); }
    case SendProceeds => if s.link.value.task.Sending? { CompleteSendBatched(s.link.value, limit); }
    case Receive => if CanReceive(s) { ReceiveBatched(s.link.value, limit); }
    case _ =>
  }

  lemma {:induction false} RunBatched(source: Source, limit: nat, trace: seq<Step>, s: State)
    requires IsRun(source, Streamed(limit), trace, s) && s.link.Some?
    ensures Batched(s.link.value, limit)
  {
    if trace != [] {
      var front := trace[..|trace| - 1];
      var before := Replay(Start(source, Streamed(limit)).value, front);
      assert before.link.Some?;
      RunBatched(source, limit, front, before);
      Reachable(source, Streamed(limit), front, before);
      StepBatched(source, before, trace[|trace| - 1], limit);
    }
  }

  /** The task does not send small batches: each holds at least the limit, but for the rest at the end. */
  lemma BatchesAreFull(source: Source, limit: nat, trace: seq<Step>, s: State, k: nat)
    requires IsRun(source, Streamed(limit), trace, s) && s.link.Some? && k < |s.link.value.queue|
    requires s.link.value.queue[k].Batch? && (k < |s.link.value.queue| - 1 || !s.link.value.task.Ended?)
    ensures |Flat(s.link.value.queue[k].chunks)| >= limit
  {
    RunBatched(source, limit, trace, s);
  }

  // ----- Progress -----

  predicate ReceiveBlocked(s: State) {
    s.pending == [] && s.link.Some? && s.link.value.rxOpen && s.link.value.queue == [] && !s.link.value.task.Ended?
  }

  predicate SendBlocked(s: State) {
    s.link.Some? && s.link.value.rxOpen && s.link.value.task.Sending? && |s.link.value.queue| >= CHANNEL_CAPACITY
  }

  /** Turns that the task can still take. */
  function Work(l: Link): nat {
    match l.task
    case Polling => 2 * |l.source.frames| + 2
    case Sending(_, last) => if last then 1 else 2 * |l.source.frames| + 3
    case Ended => 0
  }

  function TaskStep(s: State): Step {
    if s.link.Some? && s.link.value.task.Polling? then FrameArrives else SendProceeds
  }

  /** A task that is not ended and not blocked in a send takes a turn that uses up work. */
  lemma TaskProgress(s: State)
    requires s.link.Some? && !s.link.value.task.Ended? && !SendBlocked(s)
    ensures var t := Apply(s, TaskStep(s)); t.link.Some? && Work(t.link.value) < Work(s.link.value)
  {
  }

  /** Consumer and task never wait for each other. */
  lemma NoDeadlock(source: Source, config: ReadConfig, trace: seq<Step>, s: State)
    requires IsRun(source, config, trace, s)
    // A consumer waiting for a batch: the task can move, and uses up work when it does
    ensures ReceiveBlocked(s) ==>
              !SendBlocked(s) && Work(Apply(s, TaskStep(s)).link.value) < Work(s.link.value)
    // A task waiting for a free slot: the next receive brings a chunk or the error, and frees a slot
    ensures SendBlocked(s) && s.pending == [] ==>
              var t := Apply(s, Receive);
              !SendBlocked(t) && (t.pending != [] || t.history == s.history + [Lost(s.hand), ErrorSeen])
  {
    Reachable(source, config, trace, s);
    if ReceiveBlocked(s) {
      TaskProgress(s);
    }
    if SendBlocked(s) {
      assert s.link.value.queue[0] in s.link.value.queue;
    }
  }

  /** Lets the task run until a waiting receive can go on. */
  function RunTask(s: State): State
    decreases if s.link.Some? then Work(s.link.value) else 0
  {
    if ReceiveBlocked(s) then
      TaskProgress(s);
      RunTask(Apply(s, TaskStep(s)))
    else s
  }

  lemma WaitGoesOn(whole: Source, s: State)
    requires Inv(whole, s) && ReceiveBlocked(s)
    ensures var t := Apply(s, TaskStep(s));
            && Inv(whole, t) && t.link.Some? && t.link.value.rxOpen && t.pending == []
            && Work(t.link.value) < Work(s.link.value)
  {
    StepInv(whole, s, TaskStep(s));
    TaskProgress(s);
  }

  /** A task that keeps taking turns ends every wait: the receive gets a batch, the error or the end. */
  lemma {:induction false} EveryWaitEnds(whole: Source, s: State)
    requires Inv(whole, s) && s.pending == [] && s.link.Some? && s.link.value.rxOpen
    ensures var t := RunTask(s); Inv(whole, t) && (CanReceive(t) || CanSeeEnd(t))
    decreases Work(s.link.value)
  {
    if ReceiveBlocked(s) {
      WaitGoesOn(whole, s);
      EveryWaitEnds(whole, Apply(s, TaskStep(s)));
    }
  }

  /** Lets the task run on after its receiver is gone. */
  function RunAlone(s: State): State
    requires s.link.Some? && !s.link.value.rxOpen
    decreases Work(s.link.value)
  {
    if s.link.value.task.Ended? then s
    else
      TaskProgress(s);
      RunAlone(Apply(s, TaskStep(s)))
  }

  /** A task whose response was dropped ends by itself, and so gives its permit back. */
  lemma {:induction false} AbandonedTaskEnds(s: State)
    requires s.link.Some? && !s.link.value.rxOpen
    ensures RunAlone(s).link.Some? && RunAlone(s).link.value.task.Ended?
    decreases Work(s.link.value)
  {
    if !s.link.value.task.Ended? {
      TaskProgress(s);
      AbandonedTaskEnds(Apply(s, TaskStep(s)));
    }
  }
}
