/** What a read error costs: it ends the body for good, and loses at most the batch that was not sent yet. */
module BodyErrors {
  import opened Wrappers
  import opened Lists
  import opened Chunks
  import opened BodyProtocol
  import opened BodyProofs

  /** A read error is the last message of its task. */
  predicate FailureIsLast(l: Link) {
    forall k | 0 <= k < |l.queue| && l.queue[k].Failure? :: k == |l.queue| - 1 && l.task.Ended?
  }

  ghost predicate ErrorInv(s: State) {
    && (s.link.Some? ==> FailureIsLast(s.link.value))
    && (s.failed ==> s.link.Some? && (s.link.value.task.Ended? || s.link.value.task == Sending(Failure, true)))
    && (ErrorSeen in s.history ==> AtEnd(s) && s.lastTaken == 0)
  }

  lemma PollFrameErrors(l: Link)
    requires LinkInv(l) && l.task.Polling? && FailureIsLast(l)
    ensures FailureIsLast(PollFrame(l))
    ensures l.source.frames == [] && l.source.fails ==> PollFrame(l).task == Sending(Failure, true)
  {
  }

  lemma CompleteSendErrors(l: Link)
    requires LinkInv(l) && l.task.Sending? && FailureIsLast(l)
    ensures FailureIsLast(CompleteSend(l))
    ensures l.task == Sending(Failure, true) ==> CompleteSend(l).task.Ended? || CompleteSend(l).task == l.task
  {
    if l.rxOpen && |l.queue| < CHANNEL_CAPACITY {
      var queue := l.queue + [l.task.msg];
      assert forall k | 0 <= k < |l.queue| :: queue[k] == l.queue[k];
    }
  }

  lemma ReceiveErrors(whole: Source, s: State)
    requires Inv(whole, s) && ErrorInv(s) && CanReceive(s)
    ensures ErrorInv(Apply(s, Receive))
  {
    var l := s.link.value;
    assert l.queue[0] in l.queue;
    assert forall k | 0 <= k < |l.queue| - 1 :: l.queue[1..][k] == l.queue[k + 1];
  }

  lemma StepErrors(whole: Source, s: State, step: Step)
    requires Inv(whole, s) && ErrorInv(s)
    ensures ErrorInv(Apply(s, step))
  {
    match step
    case FrameArrives => if s.link.Some? && s.link.value.task.Polling? { PollFrameErrors(s.link.value); }
    case SendProceeds => if s.link.Some? && s.link.value.task.Sending? { CompleteSendErrors(s.link.value); }
    case Receive => if CanReceive(s) { ReceiveErrors(whole, s); }
    case _ =>
  }

  lemma {:induction false} RunErrors(source: Source, config: ReadConfig, trace: seq<Step>, s: State)
    requires IsRun(source, config, trace, s)
    ensures ErrorInv(s)
  {
    if trace != [] {
      var front := trace[..|trace| - 1];
      var before := Replay(Start(source, config).value, front);
      RunErrors(source, config, front, before);
      Reachable(source, config, front, before);
      StepErrors(source, before, trace[|trace| - 1]);
    }
  }

  /** Once a read error was reported the body is at its end, and whoever reads on sees a plain end. */
  lemma ErrorEndsBody(source: Source, config: ReadConfig, trace: seq<Step>, s: State)
    requires IsRun(source, config, trace, s) && ErrorSeen in s.history
    ensures AtEnd(s) && !CanReceive(s)
  {
    RunErrors(source, config, trace, s);
  }

  // ----- What an error loses -----

  /** The task meets the read error and drops its batch. */
  predicate Fails(s: State, step: Step) {
    && step.FrameArrives? && s.link.Some? && s.link.value.task.Polling?
    && s.link.value.source.frames == [] && s.link.value.source.fails
  }

  /** The read error costs the batch that was not sent yet, which is below the limit. */
  lemma FailingLoses(whole: Source, s: State)
    requires Inv(whole, s) && Fails(s, FrameArrives)
    ensures |Account(s)| <= |Account(Apply(s, FrameArrives))| + (if s.link.value.rxOpen then s.link.value.totBytes else 0)
  {
    var l := s.link.value;
    var t := Apply(s, FrameArrives);
    if l.rxOpen {
      assert LinkChunks(t.link) == QueuedChunks(l.queue) + [];
      assert QueuedChunks(l.queue) + [] == QueuedChunks(l.queue);
      assert TaskChunks(l) == l.buffer.value + [];
      assert l.buffer.value + [] == l.buffer.value;
      FlatAppend(s.pending, LinkChunks(s.link));
      FlatAppend(QueuedChunks(l.queue), l.buffer.value);
      FlatAppend(s.pending, QueuedChunks(l.queue));
    }
  }

  /** Every other step that does not cut the body keeps all bytes in the account. */
  lemma StepAccount(whole: Source, s: State, step: Step)
    requires Inv(whole, s) && !Apply(s, step).cutShort && !Fails(s, step)
    ensures Account(Apply(s, step)) == Account(s)
  {
    var t := Apply(s, step);
    match step
    case FrameArrives => if s.link.Some? && s.link.value.task.Polling? { PollFrameChunks(s.link.value); }
    case SendProceeds => if s.link.Some? && s.link.value.task.Sending? { CompleteSendChunks(s.link.value); }
    case Receive => if CanReceive(s) { ReceiveAccount(whole, s); }
    case Take => if s.pending != [] { TakeAccount(s); }
    case PutBack(count) => if t != s { PutBackAccount(s, count); }
    case Deliver => LogAccount(s, t, Delivered(s.hand));
    case CallCancelled => LogAccount(s, t, Lost(s.hand));
    case SeeEnd => if t != s { LogAccount(s, t, EndSeen); }
    case _ =>
  }

  predicate LimitOf(s: State, limit: nat) {
    s.link.Some? ==> s.link.value.limit == limit
  }

  /** At most the unsent batch is missing. */
  ghost predicate LittleLost(whole: Source, s: State, limit: nat) {
    !s.cutShort ==> |Content(whole.frames)| < |Account(s)| + Max(limit, 1)
  }

  lemma StepKeepsLimit(s: State, step: Step, limit: nat)
    requires LimitOf(s, limit)
    ensures LimitOf(Apply(s, step), limit)
  {
  }

  /** Only a task that has not met the error yet can meet it, and then nothing is missing so far. */
  lemma FailsFromClean(whole: Source, s: State, limit: nat)
    requires Inv(whole, s) && ErrorInv(s) && LimitOf(s, limit) && Fails(s, FrameArrives) && !s.cutShort
    ensures |Account(s)| == |Content(whole.frames)| && s.link.value.rxOpen && s.link.value.totBytes < Max(limit, 1)
  {
  }

  lemma StepLosesLittle(whole: Source, s: State, step: Step, limit: nat)
    requires Inv(whole, s) && ErrorInv(s) && LimitOf(s, limit) && LittleLost(whole, s, limit)
    ensures LimitOf(Apply(s, step), limit) && LittleLost(whole, Apply(s, step), limit)
  {
    StepKeepsLimit(s, step, limit);
    if !Apply(s, step).cutShort {
      if Fails(s, step) {
        FailsFromClean(whole, s, limit);
        FailingLoses(whole, s);
      } else {
        StepAccount(whole, s, step);
      }
    }
  }

  lemma {:induction false} RunLosesLittle(source: Source, limit: nat, trace: seq<Step>, s: State)
    requires IsRun(source, Streamed(limit), trace, s)
    ensures LimitOf(s, limit) && LittleLost(source, s, limit)
  {
    if trace == [] {
      Reachable(source, Streamed(limit), trace, s);
    } else {
      var front := trace[..|trace| - 1];
      var before := Replay(Start(source, Streamed(limit)).value, front);
      RunLosesLittle(source, limit, front, before);
      Reachable(source, Streamed(limit), front, before);
      RunErrors(source, Streamed(limit), front, before);
      StepLosesLittle(source, before, trace[|trace| - 1], limit);
    }
  }

  /**
   * A read error costs less than a batch: unless the body was cut, all but fewer than `limit` bytes of it were
   * taken, are in hand or are still ahead.
   */
  lemma ErrorLosesLittle(source: Source, limit: nat, trace: seq<Step>, s: State)
    requires IsRun(source, Streamed(limit), trace, s) && !s.cutShort
    ensures |Content(source.frames)| < |Emitted(s.history) + s.hand + Flat(Ahead(s))| + Max(limit, 1)
    // After the error was seen, what is missing is exactly what the calls did not get
    ensures ErrorSeen in s.history ==>
              |Content(source.frames)| < |DeliveredBytes(s.history)| + LostCount(s.history) + |s.hand| + Max(limit, 1)
  {
    RunLosesLittle(source, limit, trace, s);
    if ErrorSeen in s.history {
      ErrorEndsBody(source, Streamed(limit), trace, s);
      NothingLost(s.history);
    }
  }

  /** Neither cut nor seen to fail. */
  predicate Unbroken(s: State) {
    !s.cutShort && ErrorSeen !in s.history
  }

  /** An unbroken end is clean: an error that nobody has seen is not yet at the end. */
  lemma UnbrokenEnd(source: Source, config: ReadConfig, trace: seq<Step>, s: State)
    requires IsRun(source, config, trace, s) && AtEnd(s) && Unbroken(s)
    ensures !s.failed && !source.fails && Emitted(s.history) + s.hand == Content(source.frames)
  {
    Reachable(source, config, trace, s);
    assert Ahead(s) == [];
  }
}
