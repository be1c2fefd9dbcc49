/** How the state of the streamed body moves between two points of a consumer call. */
module BodyCalls {
  import opened Wrappers
  import opened Lists
  import opened Chunks
  import opened BodyProtocol
  import opened BodyProofs
  import opened BodyBounds
  import opened BodyErrors

  datatype ReadError = Cancelled | ReadFailed | AlreadyConsumed

  /** Neither cut short nor ended by a read error. */
  predicate Clean(s: State) {
    !s.cutShort && !s.failed
  }

  /** Chunks may vanish from the far end of what is ahead, but only in a run that is no longer clean. */
  predicate OnlyCut(s: State, t: State) {
    && Ahead(t) <= Ahead(s)
    && (Clean(t) ==> Clean(s) && Ahead(t) == Ahead(s))
  }

  predicate LinkAdvanced(l: Link, r: Link) {
    Work(r) <= Work(l) && r.rxOpen == l.rxOpen && (l.task.Ended? && l.queue == [] ==> r.task.Ended? && r.queue == [])
  }

  /** What other tasks can do while a consumer call waits. */
  predicate Advanced(s: State, t: State) {
    && t.pending == s.pending && t.hand == s.hand && t.lastTaken == s.lastTaken && t.history == s.history
    && OnlyCut(s, t)
    && t.link.Some? == s.link.Some?
    && (s.link.Some? ==> LinkAdvanced(s.link.value, t.link.value))
  }

  /** The chunk `c` came off the front of what was ahead. */
  predicate Took(s: State, t: State, c: Bytes) {
    && t.history == s.history && t.hand == s.hand + c && t.lastTaken == |c|
    && [c] + Ahead(t) <= Ahead(s)
    && (Clean(t) ==> Clean(s) && [c] + Ahead(t) == Ahead(s))
  }

  /** The call in progress is over without a result, and has lost what it had collected. */
  predicate CallFailed(s: State, t: State, e: ReadError) {
    && t.hand == [] && t.lastTaken == 0
    && t.history == (if e.ReadFailed? then s.history + [Lost(s.hand), ErrorSeen] else s.history + [Lost(s.hand)])
    && OnlyCut(s, t)
  }

  /** Nothing is left, and if the run is clean nothing was. */
  predicate SawEnd(s: State, t: State) {
    && t.hand == s.hand && t.lastTaken == 0 && t.history == s.history + [EndSeen]
    && AtEnd(t)
    && OnlyCut(s, t)
  }

  lemma AtEndAhead(s: State)
    requires AtEnd(s)
    ensures Ahead(s) == []
  {
  }

  lemma PollFrameAdvances(l: Link)
    requires LinkInv(l) && l.task.Polling?
    ensures LinkAdvanced(l, PollFrame(l))
  {
  }

  lemma FrameAdvances(source: Source, config: ReadConfig, trace: seq<Step>, s: State)
    requires IsRun(source, config, trace, s)
    ensures Advanced(s, Apply(s, FrameArrives))
  {
    Reachable(source, config, trace, s);
    if s.link.Some? && s.link.value.task.Polling? {
      var l := s.link.value;
      PollFrameChunks(l);
      PollFrameAdvances(l);
    }
  }

  lemma SendAdvances(source: Source, config: ReadConfig, trace: seq<Step>, s: State)
    requires IsRun(source, config, trace, s)
    ensures Advanced(s, Apply(s, SendProceeds))
  {
    Reachable(source, config, trace, s);
    if s.link.Some? && s.link.value.task.Sending? {
      var l := s.link.value;
      CompleteSendChunks(l);
      assert LinkAdvanced(l, CompleteSend(l));
    }
  }

  lemma StopAdvances(s: State, step: Step)
    requires step.CloseObserved? || step.TaskAborted?
    ensures Advanced(s, Apply(s, step))
  {
  }

  lemma TakeTook(s: State)
    requires s.pending != []
    ensures Took(s, Apply(s, Take), s.pending[0])
  {
    TakeAccount(s);
  }

  lemma ErrorIsReal(source: Source, config: ReadConfig, trace: seq<Step>, s: State)
    requires IsRun(source, config, trace, s) && ErrorSeen in s.history
    ensures source.fails
  {
    Reachable(source, config, trace, s);
  }

  /** Receiving a batch moves nothing but the batch. */
  lemma ReceiveBatch(s: State)
    requires CanReceive(s) && s.link.value.queue[0].Batch? && s.link.value.queue[0].chunks != []
    ensures var t := Apply(s, Receive);
            && t.pending == s.link.value.queue[0].chunks && Ahead(t) == Ahead(s)
            && t.history == s.history && t.hand == s.hand && Clean(t) == Clean(s)
  {
    ReceiveAhead(s);
  }

  /** A batch is received and its first chunk taken at once. */
  lemma ReceiveTook(source: Source, config: ReadConfig, trace: seq<Step>, s: State)
    requires IsRun(source, config, trace, s) && CanReceive(s) && s.link.value.queue[0].Batch?
    ensures var chunks := s.link.value.queue[0].chunks;
            && chunks != []
            && Apply(s, Receive).pending == chunks
            && Took(s, Apply(Apply(s, Receive), Take), chunks[0])
  {
    assert s.link.value.queue[0].chunks != [] by {
      Reachable(source, config, trace, s);
      assert s.link.value.queue[0] in s.link.value.queue;
    }
    ReceiveBatch(s);
    TakeTook(Apply(s, Receive));
  }

  lemma ReceiveFails(s: State)
    requires CanReceive(s) && s.link.value.queue[0].Failure?
    ensures CallFailed(s, Apply(s, Receive), ReadFailed)
    ensures Apply(s, Receive).pending == []
  {
    ReceiveAhead(s);
  }

  lemma ReceiveHistory(s: State)
    requires CanReceive(s)
    ensures s.link.value.queue[0] == Failure ==>
              DeliveredBytes(Apply(s, Receive).history) == DeliveredBytes(s.history)
  {
    EmittedAppend(s.history, Lost(s.hand));
    EmittedAppend(s.history + [Lost(s.hand)], ErrorSeen);
    assert s.history + [Lost(s.hand), ErrorSeen] == s.history + [Lost(s.hand)] + [ErrorSeen];
  }

  // ----- Bytes -----

  /** The bytes `b` came off the front of what was ahead, and only a cut took anything from the other end. */
  predicate Came(s: State, t: State, b: Bytes) {
    && b + Flat(Ahead(t)) <= Flat(Ahead(s))
    && (Clean(t) ==> Clean(s) && b + Flat(Ahead(t)) == Flat(Ahead(s)))
  }

  lemma CameTransitive(s: State, t: State, u: State, a: Bytes, b: Bytes)
    requires Came(s, t, a) && Came(t, u, b)
    ensures Came(s, u, a + b)
  {
    var fs, ft, fu := Flat(Ahead(s)), Flat(Ahead(t)), Flat(Ahead(u));
    Associative(a, b, fu);
    assert a + (b + fu) <= a + ft;
  }

  lemma TookCame(s: State, t: State, c: Bytes)
    requires Took(s, t, c)
    ensures Came(s, t, c) && |Ahead(t)| < |Ahead(s)|
  {
    FlatPrefix([c] + Ahead(t), Ahead(s));
    FlatAppend([c], Ahead(t));
    FlatOne(c);
  }

  lemma CutCame(s: State, t: State)
    requires OnlyCut(s, t)
    ensures Came(s, t, [])
  {
    FlatPrefix(Ahead(t), Ahead(s));
  }

  lemma PutBackCame(s: State, count: nat)
    requires 0 < count <= s.lastTaken <= |s.hand|
    ensures var t := Apply(s, PutBack(count));
            && Flat(Ahead(t)) == s.hand[|s.hand| - count..] + Flat(Ahead(s))
            && t.hand == s.hand[..|s.hand| - count]
  {
    var back := s.hand[|s.hand| - count..];
    PutBackAccount(s, count);
    FlatAppend([back], Ahead(s));
    FlatOne(back);
  }

  /** A call returned `b`. */
  predicate Returned(s: State, t: State, b: Bytes) {
    && Came(s, t, b) && t.hand == []
    && DeliveredBytes(t.history) == DeliveredBytes(s.history) + b
    && Emitted(t.history) == Emitted(s.history) + b
    && LostCount(t.history) == LostCount(s.history)
  }

  /** A call failed and lost what it had collected. */
  predicate Dropped(s: State, t: State, e: ReadError, lost: Bytes) {
    && Came(s, t, lost) && t.hand == []
    && (e.ReadFailed? <==> t.history == s.history + [Lost(lost), ErrorSeen])
    && (e.Cancelled? <==> t.history == s.history + [Lost(lost)])
  }

  lemma FailedDropped(s: State, t: State, u: State, e: ReadError)
    requires s.history == t.history && Came(s, t, t.hand) && CallFailed(t, u, e) && !e.AlreadyConsumed?
    ensures Dropped(s, u, e, t.hand)
  {
    CutCame(t, u);
    CameTransitive(s, t, u, t.hand, []);
    assert t.hand + [] == t.hand;
  }

  lemma SameBytes(history: seq<Event>, more: seq<Event>)
    requires more == history || more == history + [EndSeen]
    ensures DeliveredBytes(more) == DeliveredBytes(history) && Emitted(more) == Emitted(history)
    ensures LostCount(more) == LostCount(history)
  {
    EmittedAppend(history, EndSeen);
  }

  lemma DeliverReturned(s: State, t: State)
    requires Came(s, t, t.hand)
    requires t.history == s.history || t.history == s.history + [EndSeen]
    ensures Returned(s, Apply(t, Deliver), t.hand)
  {
    var u := Apply(t, Deliver);
    SameBytes(s.history, t.history);
    EmittedAppend(t.history, Delivered(t.hand));
    assert Ahead(u) == Ahead(t);
  }

  lemma ChunkReturned(s: State, t: State, c: Bytes)
    requires Took(s, t, c) && s.hand == []
    ensures t.hand == c && Returned(s, Apply(t, Deliver), c) && [c] <= Ahead(s)
  {
    TookCame(s, t, c);
    DeliverReturned(s, t);
  }

  lemma EndReturned(s: State, t: State)
    requires SawEnd(s, t) && s.hand == []
    ensures Returned(s, t, [])
  {
    CutCame(s, t);
    SameBytes(s.history, t.history);
  }

  lemma EmptyDropped(s: State, t: State, e: ReadError)
    requires CallFailed(s, t, e) && !e.AlreadyConsumed? && s.hand == []
    ensures Dropped(s, t, e, [])
  {
    CutCame(s, t);
  }

  /** A clean run that is at its end and lost nothing has delivered the whole body, and only then. */
  lemma WholeBody(source: Source, config: ReadConfig, trace: seq<Step>, s: State)
    requires IsRun(source, config, trace, s) && Clean(s) && AtEnd(s) && s.hand == []
    ensures DeliveredBytes(s.history) == Content(source.frames) <==> LostCount(s.history) == 0
  {
    Reachable(source, config, trace, s);
    AtEndAhead(s);
    NothingLost(s.history);
  }

  // ----- Calls that take several chunks -----

  /** Between `s` and `t` the bytes in hand have grown by what came off the front. */
  ghost predicate Extended(s: State, t: State) {
    && |s.hand| <= |t.hand| && s.hand == t.hand[..|s.hand|]
    && Came(s, t, t.hand[|s.hand|..])
  }

  lemma StayExtended(s: State)
    ensures Extended(s, s)
  {
    assert Came(s, s, []);
    assert s.hand[|s.hand|..] == [];
  }

  lemma TookExtended(s: State, t: State, u: State, c: Bytes)
    requires Extended(s, t) && Took(t, u, c)
    ensures Extended(s, u) && |Ahead(u)| < |Ahead(t)|
  {
    TookCame(t, u, c);
    CameTransitive(s, t, u, t.hand[|s.hand|..], c);
    assert u.hand[|s.hand|..] == t.hand[|s.hand|..] + c;
  }

  lemma EndExtended(s: State, t: State, u: State)
    requires Extended(s, t) && SawEnd(t, u)
    ensures Extended(s, u)
  {
    CutCame(t, u);
    CameTransitive(s, t, u, t.hand[|s.hand|..], []);
    assert t.hand[|s.hand|..] + [] == t.hand[|s.hand|..];
  }

  lemma FailExtended(s: State, t: State, u: State, e: ReadError)
    requires Extended(s, t) && s.hand == [] && t.history == s.history && CallFailed(t, u, e) && !e.AlreadyConsumed?
    ensures Dropped(s, u, e, t.hand)
  {
    assert t.hand[0..] == t.hand;
    FailedDropped(s, t, u, e);
  }

  lemma PutBackExtended(s: State, t: State, count: nat)
    requires Extended(s, t) && 0 < count <= t.lastTaken <= |t.hand| && |s.hand| <= |t.hand| - count
    ensures Extended(s, Apply(t, PutBack(count)))
    ensures Apply(t, PutBack(count)).history == t.history
    ensures Apply(t, PutBack(count)).hand == t.hand[..|t.hand| - count]
  {
    PutBackCame(t, count);
    var u := Apply(t, PutBack(count));
    var tail := t.hand[|t.hand| - count..];
    Associative(u.hand[|s.hand|..], tail, Flat(Ahead(t)));
    assert t.hand[|s.hand|..] == u.hand[|s.hand|..] + tail;
  }

  /** `b` is exactly the next bytes of the body, as many as asked for or as many as there are. */
  predicate ExactlyNext(s: State, t: State, b: Bytes, amount: nat) {
    var rest := Flat(Ahead(s));
    var n := Min(amount, |rest|);
    b == rest[..n] && Flat(Ahead(t)) == rest[n..]
  }

  lemma ReturnedExactly(s: State, t: State, b: Bytes, amount: nat)
    requires Returned(s, t, b) && (|b| == amount || (|b| < amount && AtEnd(t)))
    ensures Clean(t) ==> ExactlyNext(s, t, b, amount)
  {
    if AtEnd(t) {
      AtEndAhead(t);
    }
  }

  // ----- Positions in the whole body -----

  /** The part of the body that calls have not taken. */
  function Left(whole: Source, s: State): Bytes {
    var content := Content(whole.frames);
    if |Emitted(s.history)| <= |content| then content[|Emitted(s.history)|..] else []
  }

  /** What came off the front of what is ahead came off the front of what is left of the body. */
  lemma TakenFromLeft(source: Source, config: ReadConfig, before: seq<Step>, s: State, after: seq<Step>, t: State, b: Bytes)
    requires IsRun(source, config, before, s) && IsRun(source, config, after, t)
    requires s.hand == [] && Returned(s, t, b)
    ensures b <= Left(source, s) && Left(source, t) == Left(source, s)[|b|..]
  {
    Reachable(source, config, before, s);
    Reachable(source, config, after, t);
    var content := Content(source.frames);
    assert Emitted(t.history) <= content;
    assert Emitted(t.history) == Emitted(s.history) + b;
  }

  /** At an unbroken end nothing of the body is left. */
  lemma NothingLeft(source: Source, config: ReadConfig, trace: seq<Step>, s: State)
    requires IsRun(source, config, trace, s) && AtEnd(s) && Unbroken(s) && s.hand == []
    ensures Left(source, s) == [] && !source.fails
  {
    UnbrokenEnd(source, config, trace, s);
  }

  /** An unbroken read returns as much of the body as was asked for, or all that was left of it. */
  lemma ReadFromLeft(source: Source, config: ReadConfig, before: seq<Step>, s: State, after: seq<Step>, t: State,
                     b: Bytes, amount: nat)
    requires IsRun(source, config, before, s) && IsRun(source, config, after, t)
    requires s.hand == [] && Returned(s, t, b) && Unbroken(t)
    requires |b| <= amount && (|b| < amount ==> AtEnd(t))
    ensures b == Left(source, s)[..Min(amount, |Left(source, s)|)] && Left(source, t) == Left(source, s)[|b|..]
  {
    TakenFromLeft(source, config, before, s, after, t, b);
    if |b| < amount {
      NothingLeft(source, config, after, t);
    }
  }

  /** An end that is not due to a cut or an error means that nothing was ahead, not even an empty chunk. */
  lemma EndIsEmpty(source: Source, config: ReadConfig, trace: seq<Step>, s: State, t: State)
    requires IsRun(source, config, trace, t) && SawEnd(s, t) && (Clean(t) || Unbroken(t))
    ensures Ahead(s) == []
  {
    AtEndAhead(t);
    if Unbroken(t) {
      UnbrokenEnd(source, config, trace, t);
    }
    assert Clean(t);
  }

  /** Empty bytes that are not due to a cut or an error mean that all chunks ahead were empty. */
  lemma EmptyPiece(source: Source, config: ReadConfig, trace: seq<Step>, s: State, t: State)
    requires IsRun(source, config, trace, t) && Returned(s, t, []) && AtEnd(t) && (Clean(t) || Unbroken(t))
    ensures Flat(Ahead(s)) == []
  {
    AtEndAhead(t);
    if Unbroken(t) {
      UnbrokenEnd(source, config, trace, t);
    }
    assert Clean(t);
  }
}
