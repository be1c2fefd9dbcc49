/** Every step keeps the invariant of the streamed body, and what follows for whole runs. */
module BodyProofs {
  import opened Wrappers
  import opened Lists
  import opened Chunks
  import opened BodyProtocol

  // ----- Prefetch -----

  lemma ContentStep(frames: seq<Frame>)
    requires frames != []
    ensures Content(frames) == (if frames[0].Data? then frames[0].bytes else []) + Content(frames[1..])
  {
    FlatAppend(if frames[0].Data? && frames[0].bytes != [] then [frames[0].bytes] else [], DataChunks(frames[1..]));
    if frames[0].Data? {
      FlatOne(frames[0].bytes);
    }
  }

  /** The hand-over from prefetch to reader task loses nothing, and only stops early at the limit. */
  lemma {:induction false} PrefetchKeepsBody(source: Source, limit: Option<nat>, consumed: nat)
    ensures match PrefetchUpTo(source, limit, consumed)
            case PrefetchFailed => source.fails
            case Fetched(chunks, hasMore, rest) =>
              && Flat(chunks) + Content(rest.frames) == Content(source.frames)
              && rest.fails == source.fails
              && (hasMore ==> limit.Some? && consumed + |Flat(chunks)| >= limit.value)
              && (!hasMore ==> rest.frames == [] && !source.fails)
    decreases |source.frames|
  {
    if source.frames != [] {
      var rest := source.(frames := source.frames[1..]);
      ContentStep(source.frames);
      match source.frames[0]
      case Trailers => PrefetchKeepsBody(rest, limit, consumed);
      case Data(bytes) =>
        PrefetchKeepsBody(rest, limit, consumed + |bytes|);
        var more := PrefetchUpTo(rest, limit, consumed + |bytes|);
        FlatOne(bytes);
        if more.Fetched? {
          FlatAppend([bytes], more.chunks);
          Associative(bytes, Flat(more.chunks), Content(more.rest.frames));
        }
    }
  }

  /** The bytes of these chunks reach the limit, and not before the last of them. */
  predicate JustReaches(chunks: seq<Bytes>, limit: nat) {
    chunks != [] && |Flat(chunks[..|chunks| - 1])| < limit <= |Flat(chunks)|
  }

  lemma JustReachesNext(chunk: Bytes, chunks: seq<Bytes>, limit: nat)
    requires |chunk| < limit && JustReaches(chunks, limit - |chunk|)
    ensures JustReaches([chunk] + chunks, limit)
  {
    var all := [chunk] + chunks;
    assert all[..|all| - 1] == [chunk] + chunks[..|chunks| - 1];
    FlatOne(chunk);
    FlatAppend([chunk], chunks);
    FlatAppend([chunk], chunks[..|chunks| - 1]);
  }

  /**
   * What a prefetch does, in terms of the body: it fails exactly if the body fails before the limit is reached, and
   * leaves something to read exactly if the limit is reached; and it splits the chunks of the body in two.
   */
  ghost predicate PrefetchedTo(source: Source, limit: Option<nat>, p: Prefetched) {
    var reached := limit.Some? && |Content(source.frames)| >= limit.value;
    && (p.PrefetchFailed? <==> source.fails && !reached)
    && (p.Fetched? ==>
          && (p.hasMore <==> reached)
          && p.chunks + AllData(p.rest.frames) == AllData(source.frames)
          && Flat(p.chunks) + Content(p.rest.frames) == Content(source.frames)
          && p.rest.fails == source.fails
          && (if !reached then p.rest.frames == []
              else if limit.value == 0 then p.chunks == [] && p.rest == source
              else JustReaches(p.chunks, limit.value)))
  }

  lemma {:induction false} PrefetchExact(source: Source, limit: Option<nat>, consumed: nat)
    requires limit.Some? ==> consumed < limit.value
    ensures PrefetchedTo(source, if limit.Some? then Some(limit.value - consumed) else None,
                         PrefetchUpTo(source, limit, consumed))
    decreases |source.frames|
  {
    PrefetchKeepsBody(source, limit, consumed);
    if source.frames != [] {
      var rest := source.(frames := source.frames[1..]);
      ContentStep(source.frames);
      match source.frames[0]
      case Trailers => PrefetchExact(rest, limit, consumed);
      case Data(bytes) =>
        FlatOne(bytes);
        if limit.Some? && consumed + |bytes| >= limit.value {
          assert [bytes][..0] == [];
        } else {
          PrefetchExact(rest, limit, consumed + |bytes|);
          var more := PrefetchUpTo(rest, limit, consumed + |bytes|);
          if more.Fetched? && more.hasMore {
            JustReachesNext(bytes, more.chunks, limit.value - consumed);
          }
        }
    }
  }

  /** The prefetch of every configuration: nothing, everything, or up to the limit, which may be zero. */
  lemma PrefetchMeans(source: Source, config: ReadConfig)
    ensures var p := Prefetch(source, config);
            match config
            case NoBody => p == Fetched([], false, source)
            case FullyConsumed => PrefetchedTo(source, None, p)
            case Streamed(limit) => PrefetchedTo(source, Some(limit), p)
  {
    match config
    case NoBody =>
    case FullyConsumed => PrefetchExact(source, None, 0);
    case Streamed(limit) =>
      if limit > 0 { PrefetchExact(source, Some(limit), 0); }
  }

  lemma PrefetchConfig(source: Source, config: ReadConfig)
    requires Prefetch(source, config).Fetched? && !config.NoBody?
    ensures var p := Prefetch(source, config);
            && Flat(p.chunks) + Content(p.rest.frames) == Content(source.frames)
            && p.rest.fails == source.fails
            && (!p.hasMore ==> p.rest.frames == [] && !source.fails)
            && (p.hasMore ==> config.Streamed?)
  {
    PrefetchKeepsBody(source, if config.Streamed? then Some(config.limit) else None, 0);
  }

  lemma StartAhead(source: Source, config: ReadConfig)
    requires Start(source, config).Some?
    ensures var s := Start(source, config).value;
            Flat(Ahead(s)) == if config.NoBody? then [] else Content(source.frames)
  {
    var s := Start(source, config).value;
    var p := Prefetch(source, config);
    if !config.NoBody? {
      PrefetchConfig(source, config);
    }
    if s.link.Some? {
      var chunks := DataChunks(p.rest.frames);
      assert LinkChunks(s.link) == [] + ([] + chunks);
      assert [] + ([] + chunks) == chunks;
      FlatAppend(p.chunks, chunks);
    } else {
      assert Ahead(s) == p.chunks;
    }
  }

  lemma StartInv(source: Source, config: ReadConfig)
    requires Start(source, config).Some?
    ensures Inv(source, Start(source, config).value)
  {
    StartAhead(source, config);
    if !config.NoBody? {
      PrefetchConfig(source, config);
    }
  }

  // ----- The task's own steps: they keep the chunks ahead, or cut them to a prefix -----

  lemma SendChunkChunks(l: Link, bytes: Bytes, more: seq<Bytes>)
    requires LinkInv(l) && l.task.Polling? && bytes != []
    requires more == [bytes] + DataChunks(l.source.frames)
    ensures LinkInv(SendChunk(l, bytes)) && TaskChunks(SendChunk(l, bytes)) == l.buffer.value + more
  {
    FlatAppend(l.buffer.value, [bytes]);
    FlatOne(bytes);
    Associative(l.buffer.value, [bytes], DataChunks(l.source.frames));
  }

  lemma PollFrameChunks(l: Link)
    requires LinkInv(l) && l.task.Polling?
    ensures var r := PollFrame(l);
            && LinkInv(r)
            && r.queue == l.queue && r.rxOpen == l.rxOpen
            && (if l.source.frames == [] && l.source.fails then r.task == Sending(Failure, true)
                else TaskChunks(r) == TaskChunks(l))
            && (l.source.fails && l.source.frames != [] ==> FailureAhead(Some(r)))
  {
    if l.source.frames != [] && l.source.frames[0].Data? && l.source.frames[0].bytes != [] {
      var next := l.(source := l.source.(frames := l.source.frames[1..]));
      SendChunkChunks(next, l.source.frames[0].bytes, DataChunks(l.source.frames));
    }
  }

  lemma SentChunks(l: Link, sent: Link)
    requires l.task.Sending? && (l.task.msg.Failure? ==> l.task.last) && (!l.task.last ==> l.buffer == Some([]))
    requires sent.queue == l.queue + [l.task.msg]
    requires sent.task == if l.task.last then Ended else Polling
    requires !l.task.last ==> sent.buffer == l.buffer && sent.source == l.source
    ensures QueuedChunks(sent.queue) + TaskChunks(sent) == QueuedChunks(l.queue) + TaskChunks(l)
  {
    var rest := if l.task.last then [] else DataChunks(l.source.frames);
    assert TaskChunks(sent) == rest;
    assert TaskChunks(l) == MessageChunks(l.task.msg) + rest;
    QueuedAppend(l.queue, l.task.msg);
    Associative(QueuedChunks(l.queue), MessageChunks(l.task.msg), rest);
  }

  lemma CompleteSendInv(l: Link)
    requires LinkInv(l) && l.task.Sending?
    ensures LinkInv(CompleteSend(l)) && CompleteSend(l).rxOpen == l.rxOpen
  {
  }

  lemma CompleteSendChunks(l: Link)
    requires LinkInv(l) && l.task.Sending?
    ensures var r := CompleteSend(l);
            && LinkInv(r) && r.rxOpen == l.rxOpen
            && (l.rxOpen ==> LinkChunks(Some(r)) == LinkChunks(Some(l)))
            && (l.rxOpen && FailureAhead(Some(l)) ==> FailureAhead(Some(r)))
            && (l.rxOpen && FailurePending(Some(l)) ==> FailurePending(Some(r)))
  {
    CompleteSendInv(l);
    if l.rxOpen && |l.queue| < CHANNEL_CAPACITY {
      SentChunks(l, CompleteSend(l));
    }
  }

  /** A state that only lost chunks at the far end, and says so, keeps the conservation law. */
  lemma KeepsPrefix(whole: Source, s: State, t: State)
    requires Inv(whole, s)
    requires t.history == s.history && t.hand == s.hand
    requires Ahead(t) <= Ahead(s)
    requires Ahead(t) == Ahead(s) || t.cutShort || t.failed
    requires (s.cutShort ==> t.cutShort) && (s.failed ==> t.failed)
    ensures Emitted(t.history) + t.hand + Flat(Ahead(t)) <= Content(whole.frames)
    ensures !t.cutShort && !t.failed ==> Emitted(t.history) + t.hand + Flat(Ahead(t)) == Content(whole.frames)
  {
    FlatPrefix(Ahead(t), Ahead(s));
    var taken := Emitted(s.history) + s.hand;
    assert taken + Flat(Ahead(t)) <= taken + Flat(Ahead(s));
  }

  lemma FrameArrivesInv(whole: Source, s: State)
    requires Inv(whole, s) && s.link.Some? && s.link.value.task.Polling?
    ensures Inv(whole, Apply(s, FrameArrives))
  {
    PollFrameChunks(s.link.value);
    KeepsPrefix(whole, s, Apply(s, FrameArrives));
  }

  lemma SendProceedsInv(whole: Source, s: State)
    requires Inv(whole, s) && s.link.Some? && s.link.value.task.Sending?
    ensures Inv(whole, Apply(s, SendProceeds))
  {
    CompleteSendChunks(s.link.value);
    KeepsPrefix(whole, s, Apply(s, SendProceeds));
  }

  lemma CutStepInv(whole: Source, s: State, step: Step)
    requires Inv(whole, s)
    requires step.CloseObserved? || step.TaskAborted? || step.RequestClose? || step.DropReceiver?
    ensures Inv(whole, Apply(s, step))
  {
    var t := Apply(s, step);
    if t != s {
      KeepsPrefix(whole, s, t);
    }
  }

  function Account(s: State): Bytes {
    Emitted(s.history) + s.hand + Flat(Ahead(s))
  }

  lemma PopQueue(l: Link)
    requires l.queue != []
    ensures var head := MessageChunks(l.queue[0]);
            QueuedChunks(l.queue) + TaskChunks(l) == head + (QueuedChunks(l.queue[1..]) + TaskChunks(l))
  {
    Associative(MessageChunks(l.queue[0]), QueuedChunks(l.queue[1..]), TaskChunks(l));
  }

  lemma ReceiveAhead(s: State)
    requires CanReceive(s)
    ensures Ahead(Apply(s, Receive)) == Ahead(s)
  {
    var l := s.link.value;
    var rest := l.(queue := l.queue[1..]);
    assert Ahead(s) == LinkChunks(s.link);
    assert Apply(s, Receive).link == Some(rest) && TaskChunks(rest) == TaskChunks(l);
    PopQueue(l);
  }

  lemma ReceiveAccount(whole: Source, s: State)
    requires Inv(whole, s) && CanReceive(s)
    ensures Account(Apply(s, Receive)) == Account(s)
  {
    ReceiveAhead(s);
    var m := s.link.value.queue[0];
    assert m in s.link.value.queue;
    if m.Failure? {
      EmittedAppend(s.history, Lost(s.hand));
      EmittedAppend(s.history + [Lost(s.hand)], ErrorSeen);
      assert s.history + [Lost(s.hand), ErrorSeen] == s.history + [Lost(s.hand)] + [ErrorSeen];
      assert Emitted(Apply(s, Receive).history) == Emitted(s.history) + s.hand;
    }
  }

  lemma TakeAccount(s: State)
    requires s.pending != []
    ensures Account(Apply(s, Take)) == Account(s)
    ensures Ahead(s) == [s.pending[0]] + Ahead(Apply(s, Take))
  {
    var t := Apply(s, Take);
    assert Ahead(t) == s.pending[1..] + LinkChunks(s.link);
    assert Ahead(s) == [s.pending[0]] + Ahead(t);
    FlatOne(s.pending[0]);
    FlatAppend([s.pending[0]], Ahead(t));
  }

  lemma PutBackAccount(s: State, count: nat)
    requires 0 < count <= s.lastTaken <= |s.hand|
    ensures Account(Apply(s, PutBack(count))) == Account(s)
    ensures Ahead(Apply(s, PutBack(count))) == [s.hand[|s.hand| - count..]] + Ahead(s)
  {
    var t := Apply(s, PutBack(count));
    var back := s.hand[|s.hand| - count..];
    assert Ahead(t) == [back] + Ahead(s);
    FlatOne(back);
    FlatAppend([back], Ahead(s));
    assert s.hand == t.hand + back;
  }

  lemma ReceiveBatchInv(whole: Source, s: State)
    requires Inv(whole, s) && CanReceive(s) && s.link.value.queue[0].Batch?
    ensures Inv(whole, Apply(s, Receive))
  {
    ReceiveAhead(s);
    ReceiveAccount(whole, s);
    var queue := s.link.value.queue;
    assert queue[0] in queue;
    assert queue == [queue[0]] + queue[1..];
  }

  lemma ReceiveFailureInv(whole: Source, s: State)
    requires Inv(whole, s) && CanReceive(s) && s.link.value.queue[0].Failure?
    ensures Inv(whole, Apply(s, Receive))
  {
    ReceiveAhead(s);
    ReceiveAccount(whole, s);
    var queue := s.link.value.queue;
    assert queue[0] in queue;
    assert FailurePending(s.link);
  }

  lemma TakeInv(whole: Source, s: State)
    requires Inv(whole, s) && s.pending != []
    ensures Inv(whole, Apply(s, Take))
  {
    TakeAccount(s);
  }

  lemma PutBackInv(whole: Source, s: State, count: nat)
    requires Inv(whole, s) && 0 < count <= s.lastTaken
    ensures Inv(whole, Apply(s, PutBack(count)))
  {
    PutBackAccount(s, count);
  }

  /** Moving the bytes in hand to the history, or noting the end, changes nothing in the account. */
  lemma LogAccount(s: State, t: State, e: Event)
    requires t.link == s.link && t.pending == s.pending && t.history == s.history + [e]
    requires s.hand == EventBytes(e) + t.hand
    ensures Account(t) == Account(s)
  {
    EmittedAppend(s.history, e);
    Associative(Emitted(s.history), EventBytes(e), t.hand);
  }

  lemma CallOverInv(whole: Source, s: State, step: Step)
    requires Inv(whole, s)
    requires step.Deliver? || step.CallCancelled? || step.SeeEnd?
    ensures Inv(whole, Apply(s, step))
  {
    var t := Apply(s, step);
    if t != s {
      LogAccount(s, t, if step.Deliver? then Delivered(s.hand) else if step.CallCancelled? then Lost(s.hand) else EndSeen);
    }
  }

  lemma StepInv(whole: Source, s: State, step: Step)
    requires Inv(whole, s)
    ensures Inv(whole, Apply(s, step))
  {
    match step
    case FrameArrives => if s.link.Some? && s.link.value.task.Polling? { FrameArrivesInv(whole, s); }
    case SendProceeds => if s.link.Some? && s.link.value.task.Sending? { SendProceedsInv(whole, s); }
    case CloseObserved => CutStepInv(whole, s, step);
    case TaskAborted => CutStepInv(whole, s, step);
    case RequestClose => CutStepInv(whole, s, step);
    case DropReceiver => CutStepInv(whole, s, step);
    case Receive =>
      if CanReceive(s) {
        if s.link.value.queue[0].Batch? { ReceiveBatchInv(whole, s); } else { ReceiveFailureInv(whole, s); }
      }
    case Take => if s.pending != [] { TakeInv(whole, s); }
    case PutBack(count) => if 0 < count <= s.lastTaken { PutBackInv(whole, s, count); }
    case _ => CallOverInv(whole, s, step);
  }

  // ----- Whole runs -----

  lemma {:induction false} Reachable(source: Source, config: ReadConfig, trace: seq<Step>, s: State)
    requires IsRun(source, config, trace, s)
    ensures Inv(source, s)
  {
    var start := Start(source, config).value;
    if trace == [] {
      StartInv(source, config);
    } else {
      var before := trace[..|trace| - 1];
      Reachable(source, config, before, Replay(start, before));
      StepInv(source, Replay(start, before), trace[|trace| - 1]);
    }
  }

  /**
   * No silent truncation: an end of body that was reported without a cut and without an error is the real
   * end. What the calls returned is then the whole body, but for what failed calls had collected.
   */
  lemma NoSilentTruncation(source: Source, config: ReadConfig, trace: seq<Step>, s: State)
    requires IsRun(source, config, trace, s)
    requires EndSeen in s.history && !s.cutShort && ErrorSeen !in s.history
    ensures !source.fails
    ensures Emitted(s.history) + s.hand == Content(source.frames)
    ensures LostCount(s.history) == 0 ==> DeliveredBytes(s.history) + s.hand == Content(source.frames)
  {
    Reachable(source, config, trace, s);
    NothingLost(s.history);
    assert Ahead(s) == [];
  }

  /**
   * Whatever happens, taken bytes come off the front of the body in order: none twice and none out of place.
   * While the body is neither cut nor failed, nothing is missing between them and what is still ahead.
   */
  lemma FlatCursor(source: Source, config: ReadConfig, trace: seq<Step>, s: State)
    requires IsRun(source, config, trace, s)
    ensures Emitted(s.history) + s.hand + Flat(Ahead(s)) <= Content(source.frames)
    ensures !s.cutShort && !s.failed ==> Emitted(s.history) + s.hand + Flat(Ahead(s)) == Content(source.frames)
    ensures |Emitted(s.history)| == |DeliveredBytes(s.history)| + LostCount(s.history)
    ensures LostCount(s.history) == 0 ==> DeliveredBytes(s.history) <= Content(source.frames)
  {
    Reachable(source, config, trace, s);
    NothingLost(s.history);
  }
}
