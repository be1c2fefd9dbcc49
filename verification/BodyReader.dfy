/**
 * The body reader as it runs: the prefetch loop, the reader task with its bounded channel, and the consumer
 * calls. An await is a point where the task takes any number of turns; a call can be cancelled at any await.
 * Every statement that other tasks can see is a step of the protocol, recorded in `trace`.
 */
module BodyReader {
  import opened Wrappers
  import opened Lists
  import opened Chunks
  import P = BodyProtocol
  import opened BodyProofs
  import opened BodyBounds
  import opened BodyCalls
  import opened BodyErrors

  /** The spawned reader task, the channel it sends to and the token that closes it. */
  class Reader {
    var source: P.Source
    var task: P.Task
    var buffer: Option<seq<Bytes>>
    var totBytes: nat
    const bufferSize: nat
    var queue: seq<P.Message>
    var closeRequested: bool
    var rxOpen: bool

    function Link(): P.Link
      reads this
    {
      P.Link(source, task, buffer, totBytes, bufferSize, queue, closeRequested, rxOpen)
    }

    constructor Start(source: P.Source, bufferSize: nat)
      ensures Link() == P.Link(source, P.Polling, Some([]), 0, bufferSize, [], false, true)
    {
      this.source := source;
      this.task := P.Polling;
      this.buffer := Some([]);
      this.totBytes := 0;
      this.bufferSize := bufferSize;
      this.queue := [];
      this.closeRequested := false;
      this.rxOpen := true;
    }

    method Stop()
      modifies this
      ensures Link() == P.End(old(Link()))
    {
      task, buffer, totBytes, source := P.Ended, None, 0, P.Source([], false);
    }

    method SendChunk(chunk: Bytes)
      modifies this
      ensures Link() == P.SendChunk(old(Link()), chunk)
    {
      if buffer.None? {
        Stop();
        return;
      }
      totBytes := totBytes + |chunk|;
      buffer := Some(buffer.value + [chunk]);
      if totBytes < bufferSize {
        return;
      }
      var full := buffer.value;
      totBytes := 0;
      buffer := Some([]);
      task := P.Sending(P.Batch(full), false);
    }

    method Finalize()
      modifies this
      ensures Link() == P.Finalize(old(Link()))
    {
      var rest := buffer;
      if rest.Some? && rest.value != [] {
        buffer := None;
        task := P.Sending(P.Batch(rest.value), true);
      } else {
        Stop();
      }
    }

    /** The loop of the task, up to its next await. */
    method Turn()
      requires task.Polling?
      modifies this
      ensures Link() == P.PollFrame(old(Link()))
    {
      if source.frames == [] {
        if source.fails {
          task := P.Sending(P.Failure, true);
        } else {
          Finalize();
        }
      } else {
        var frame := source.frames[0];
        source := source.(frames := source.frames[1..]);
        if frame.Data? && frame.bytes != [] {
          SendChunk(frame.bytes);
        }
      }
    }

    /** The await of a send: ready when the receiver is gone or a slot is free. */
    method PollSend()
      requires task.Sending?
      modifies this
      ensures Link() == P.CompleteSend(old(Link()))
      // Without a receiver the task is over; a message waits while two are queued, and then goes to the back
      ensures !rxOpen ==> task.Ended? && queue == old(queue)
      ensures rxOpen && |old(queue)| >= 2 ==> task == old(task) && queue == old(queue)
      ensures rxOpen && |old(queue)| < 2 ==>
                queue == old(queue) + [old(task).msg] && task == (if old(task).last then P.Ended else P.Polling)
    {
      if !rxOpen {
        Stop();
      } else if |queue| < P.CHANNEL_CAPACITY {
        queue := queue + [task.msg];
        if task.last {
          Stop();
        } else {
          task := P.Polling;
        }
      }
    }
  }

  class BodyReader {
    const receiver: Reader?
    var pendingChunks: seq<Bytes>
    var fullyConsumedBody: Option<Bytes>
    var readBytes: nat

    /** The runtime may shut down while its tasks run, which aborts them. */
    const mayStop: bool

    ghost const whole: P.Source
    ghost const config: P.ReadConfig
    ghost var state: P.State
    ghost var trace: seq<P.Step>

    /** `Close` was called. */
    ghost var closed: bool

    /** A call has raised a read error, or has raised after it had collected something. */
    ghost var raised: bool

    ghost predicate Valid()
      reads this, receiver
    {
      && P.IsRun(whole, config, trace, state)
      && state.pending == pendingChunks
      && state.link == (if receiver == null then None else Some(receiver.Link()))
      && (receiver != null ==> receiver.rxOpen && (receiver.closeRequested ==> closed))
      && readBytes == |P.DeliveredBytes(state.history)|
      && (fullyConsumedBody.Some? ==>
            P.AtEnd(state) && fullyConsumedBody.value == P.DeliveredBytes(state.history))
      && (state.cutShort ==> config.NoBody? || mayStop || closed)
      && (!raised ==> P.LostCount(state.history) == 0 && P.ErrorSeen !in state.history)
    }

    /**
     * All that a caller can see is well: there is a body to read, its runtime stays, nobody closed it, and no call
     * raised anything but a refusal.
     */
    ghost predicate Safe()
      reads this
    {
      !config.NoBody? && !mayStop && !closed && !raised
    }

    /** No call is in progress. */
    ghost predicate Idle()
      reads this, receiver
    {
      Valid() && state.hand == []
    }

    /** The bytes that later calls can still return. */
    ghost function Rest(): Bytes
      reads this
    {
      Flat(P.Ahead(state))
    }

    /** The part of the body that calls have not taken. */
    ghost function LeftOver(): Bytes
      reads this
    {
      Left(whole, state)
    }

    /** A failing call was cancelled by someone who could, or the body has a read error. */
    ghost predicate Blamed(e: ReadError, cancellable: bool) {
      match e
      case Cancelled => cancellable
      case ReadFailed => whole.fails
      case AlreadyConsumed => false
    }

    /** What is held for this reader never exceeds four batches, whatever is done with it. */
    lemma HoldsAtMost(size: nat)
      requires Valid() && config.Streamed? && FramesFit(whole.frames, size)
      ensures HeldBytes(state) <= 4 * (Max(config.limit, 1) - 1 + size)
    {
      MemoryBound(whole, config.limit, size, trace, state);
    }

    ghost method Log(step: P.Step)
      requires P.IsRun(whole, config, trace, state)
      modifies this`state, this`trace
      ensures state == P.Apply(old(state), step) && P.IsRun(whole, config, trace, state)
    {
      P.RunOn(whole, config, trace, state, step);
      trace := trace + [step];
      state := P.Apply(state, step);
    }

    /** The task takes its next turn, if it is not blocked. */
    method TaskTurn()
      requires Valid() && receiver != null && !receiver.task.Ended?
      modifies receiver, this`state, this`trace
      ensures Valid() && Advanced(old(state), state)
      ensures !SendBlocked(old(state)) ==> Work(receiver.Link()) < Work(old(receiver.Link()))
    {
      if !SendBlocked(state) { TaskProgress(state); }
      if receiver.task.Polling? {
        FrameAdvances(whole, config, trace, state);
        receiver.Turn();
        Log(P.FrameArrives);
      } else {
        SendAdvances(whole, config, trace, state);
        receiver.PollSend();
        Log(P.SendProceeds);
      }
    }

    /** The task is stopped by its close token, or together with its runtime. */
    method TaskStops(aborted: bool)
      requires Valid() && receiver != null && !receiver.task.Ended?
      requires if aborted then mayStop else receiver.closeRequested
      modifies receiver, this`state, this`trace
      ensures Valid() && Advanced(old(state), state)
    {
      ghost var step := if aborted then P.TaskAborted else P.CloseObserved;
      StopAdvances(state, step);
      receiver.Stop();
      Log(step);
    }

    /** An await: the task runs for any number of turns. */
    method Yield()
      requires Valid() && receiver != null
      modifies receiver, this`state, this`trace
      ensures Valid() && Advanced(old(state), state)
    {
      var turns: nat := *;
      while turns > 0
        invariant Valid() && Advanced(old(state), state)
      {
        turns := turns - 1;
        if !receiver.task.Ended? {
          var stops, aborted := *, *;
          if stops && (if aborted then mayStop else receiver.closeRequested) {
            TaskStops(aborted);
          } else {
            TaskTurn();
          }
        }
      }
    }

    /**
     * Waits until the channel has a message or is closed; false when the call is cancelled first. A call
     * whose cancel handle nobody holds, as in the sync API, is not cancellable.
     */
    method AwaitMessage(cancellable: bool) returns (ready: bool)
      requires Valid() && receiver != null
      modifies receiver, this`state, this`trace
      ensures Valid() && Advanced(old(state), state)
      ensures ready ==> receiver.queue != [] || receiver.task.Ended?
      ensures !cancellable ==> ready
    {
      Yield();
      while receiver.queue == [] && !receiver.task.Ended?
        invariant Valid() && Advanced(old(state), state)
        decreases Work(receiver.Link())
      {
        var cancelled := *;
        if cancellable && cancelled {
          return false;
        }
        TaskTurn();
      }
      // Both may be ready, and then either can win
      var cancelled := *;
      ready := !(cancellable && cancelled);
    }

    method ReadNext(cancellable: bool) returns (r: Result<Option<Bytes>, ReadError>)
      requires Valid()
      modifies receiver, this`state, this`trace, this`raised, this`pendingChunks
      ensures Valid()
      ensures match r
              case Ok(Some(chunk)) => Took(old(state), state, chunk)
              case Ok(None) => SawEnd(old(state), state)
              case Err(e) => CallFailed(old(state), state, e) && Blamed(e, cancellable)
      ensures old(P.AtEnd(state)) ==> P.AtEnd(state) && (r == Ok(None) || r == Err(Cancelled))
      ensures raised ==> old(raised) || r == Err(ReadFailed) || (r.Err? && old(state.hand) != [])
    {
      if |pendingChunks| > 0 {
        TakeTook(state);
        r := TakePending();
      } else if receiver == null {
        r := ReportEnd();
      } else {
        r := ReadChannel(cancellable);
      }
    }

    method ReportEnd() returns (r: Result<Option<Bytes>, ReadError>)
      requires Valid() && P.CanSeeEnd(state)
      modifies this`state, this`trace
      ensures Valid() && r == Ok(None) && SawEnd(old(state), state)
    {
      P.EmittedAppend(state.history, P.EndSeen);
      Log(P.SeeEnd);
      r := Ok(None);
    }

    method ReportCancelled() returns (r: Result<Option<Bytes>, ReadError>)
      requires Valid()
      modifies this`state, this`trace, this`raised
      ensures Valid() && r == Err(Cancelled) && CallFailed(old(state), state, Cancelled)
      ensures raised ==> old(raised) || old(state.hand) != []
      ensures state.pending == old(state.pending) && state.link == old(state.link)
    {
      P.EmittedAppend(state.history, P.Lost(state.hand));
      raised := raised || state.hand != [];
      Log(P.CallCancelled);
      r := Err(Cancelled);
    }

    method ReadChannel(cancellable: bool) returns (r: Result<Option<Bytes>, ReadError>)
      requires Valid() && receiver != null && pendingChunks == []
      modifies receiver, this`state, this`trace, this`raised, this`pendingChunks
      ensures Valid()
      ensures match r
              case Ok(Some(chunk)) => Took(old(state), state, chunk)
              case Ok(None) => SawEnd(old(state), state)
              case Err(e) => CallFailed(old(state), state, e) && Blamed(e, cancellable)
      ensures old(P.AtEnd(state)) ==> P.AtEnd(state) && (r == Ok(None) || r == Err(Cancelled))
      ensures raised ==> old(raised) || r == Err(ReadFailed) || (r.Err? && old(state.hand) != [])
    {
      var ready := AwaitMessage(cancellable);
      if !ready {
        r := ReportCancelled();
      } else if receiver.queue == [] {
        r := ReportEnd();
      } else {
        r := TakeMessage();
      }
    }

    method TakePending() returns (r: Result<Option<Bytes>, ReadError>)
      requires Valid() && pendingChunks != []
      modifies this`state, this`trace, this`pendingChunks
      ensures Valid() && r == Ok(Some(old(pendingChunks[0])))
      ensures state == P.Apply(old(state), P.Take)
    {
      r := Ok(Some(pendingChunks[0]));
      pendingChunks := pendingChunks[1..];
      Log(P.Take);
    }

    /** Moves the next batch of the channel to the pending chunks. */
    method RefillPending() returns (failed: bool)
      requires Valid() && receiver != null && pendingChunks == [] && receiver.queue != []
      modifies receiver, this`state, this`trace, this`raised, this`pendingChunks
      ensures Valid()
      ensures failed == old(receiver.queue)[0].Failure?
      ensures state == P.Apply(old(state), P.Receive)
      ensures !failed ==> pendingChunks == old(receiver.queue)[0].chunks != []
      ensures raised == (old(raised) || failed)
    {
      var message := receiver.queue[0];
      failed := message.Failure?;
      if failed {
        ReceiveHistory(state);
      } else {
        ReceiveTook(whole, config, trace, state);
      }
      receiver.queue := receiver.queue[1..];
      if !failed {
        pendingChunks := message.chunks;
      }
      raised := raised || failed;
      Log(P.Receive);
    }

    method TakeMessage() returns (r: Result<Option<Bytes>, ReadError>)
      requires Valid() && receiver != null && pendingChunks == [] && receiver.queue != []
      modifies receiver, this`state, this`trace, this`raised, this`pendingChunks
      ensures Valid()
      ensures match r
              case Ok(Some(chunk)) => Took(old(state), state, chunk)
              case Ok(None) => false
              case Err(e) => e.ReadFailed? && whole.fails && CallFailed(old(state), state, e)
      ensures raised ==> old(raised) || r.Err?
    {
      ghost var before := state;
      if receiver.queue[0].Failure? {
        ReceiveFails(state);
      } else {
        ReceiveTook(whole, config, trace, state);
      }
      var failed := RefillPending();
      if failed {
        ErrorIsReal(whole, config, trace, state);
        r := Err(ReadFailed);
      } else {
        r := TakePending();
        assert state == P.Apply(P.Apply(before, P.Receive), P.Take);
      }
    }

    /** The call returns the bytes it has in hand, and counts them. */
    method CountDelivered(bytes: Bytes)
      requires Valid() && fullyConsumedBody.None? && bytes == state.hand
      modifies this`state, this`trace, this`readBytes
      ensures Valid() && state == P.Apply(old(state), P.Deliver) && readBytes == old(readBytes) + |bytes|
    {
      P.EmittedAppend(state.history, P.Delivered(state.hand));
      readBytes := readBytes + |bytes|;
      Log(P.Deliver);
    }

    /** The part of a chunk that the call has no room for goes back to the front of the queue. */
    method PushFront(extra: Bytes)
      requires Valid() && fullyConsumedBody.None?
      requires 0 < |extra| <= state.lastTaken <= |state.hand| && extra == state.hand[|state.hand| - |extra|..]
      modifies this`state, this`trace, this`pendingChunks
      ensures Valid() && state == P.Apply(old(state), P.PutBack(|extra|))
    {
      pendingChunks := [extra] + pendingChunks;
      Log(P.PutBack(|extra|));
    }

    /** What a chunk read does, seen from the state `s` before it. */
    ghost predicate ChunkOutcome(s: P.State, consumed: bool, r: Result<Option<Bytes>, ReadError>, cancellable: bool)
      reads this
    {
      && (match r
          // The very next chunk
          case Ok(Some(chunk)) => Returned(s, state, chunk) && [chunk] <= P.Ahead(s)
          case Ok(None) => P.AtEnd(state) && Returned(s, state, [])
          // A cancelled or failed call skips nothing
          case Err(e) => Dropped(s, state, e, []) && Blamed(e, cancellable))
      && (P.AtEnd(s) || consumed ==> r == Ok(None) || r == Err(Cancelled))
    }

    method NextChunk(cancellable: bool) returns (r: Result<Option<Bytes>, ReadError>)
      requires Idle()
      modifies receiver, this`state, this`trace, this`raised, this`pendingChunks, this`readBytes
      ensures Idle()
      ensures ChunkOutcome(old(state), old(fullyConsumedBody).Some?, r, cancellable)
      ensures raised ==> old(raised) || r == Err(ReadFailed)
      // In the whole body it is the next piece, and an end is the end
      ensures r.Ok? ==> var piece := if r.value.Some? then r.value.value else [];
                        && piece <= old(LeftOver()) && LeftOver() == old(LeftOver())[|piece|..]
                        && readBytes == old(readBytes) + |piece|
      ensures r == Ok(None) && Safe() ==> LeftOver() == [] && !whole.fails
    {
      ghost var start, startTrace := state, trace;
      r := ReadNext(cancellable);
      match r
      case Ok(Some(chunk)) =>
        DeliverChunk(chunk, start);
        TakenFromLeft(whole, config, startTrace, start, trace, state, chunk);
      case Ok(None) =>
        EndReturned(start, state);
        TakenFromLeft(whole, config, startTrace, start, trace, state, []);
        if Safe() { NothingLeft(whole, config, trace, state); }
      case Err(e) =>
        EmptyDropped(start, state, e);
    }

    method DeliverChunk(chunk: Bytes, ghost start: P.State)
      requires Valid() && fullyConsumedBody.None? && start.hand == [] && Took(start, state, chunk)
      modifies this`state, this`trace, this`readBytes
      ensures Idle() && Returned(start, state, chunk) && [chunk] <= P.Ahead(start)
    {
      ChunkReturned(start, state, chunk);
      CountDelivered(chunk);
    }

    /** The part of the chunk just taken that the call has room for. */
    method KeepAtMost(chunk: Bytes, room: nat, ghost collected: Bytes, ghost start: P.State) returns (kept: Bytes)
      requires Valid() && fullyConsumedBody.None? && room > 0
      requires state.hand == collected + chunk && state.lastTaken == |chunk|
      requires Extended(start, state) && |start.hand| <= |collected|
      modifies this`state, this`trace, this`pendingChunks
      ensures Valid() && |kept| <= room && (|kept| < room ==> state == old(state))
      ensures state.hand == collected + kept && state.history == old(state.history)
      ensures Extended(start, state)
      ensures |kept| == room || |P.Ahead(state)| == |P.Ahead(old(state))|
    {
      kept := chunk;
      if |chunk| > room {
        var extra := chunk[room..];
        PutBackExtended(start, state, |extra|);
        PushFront(extra);
        kept := chunk[..room];
      }
    }

    /** The next chunk of a call that collects several. */
    method TakeOne(ghost collected: Bytes, cancellable: bool, ghost start: P.State)
      returns (r: Result<Option<Bytes>, ReadError>)
      requires Valid() && fullyConsumedBody.None? && start.hand == []
      requires state.hand == collected && state.history == start.history && Extended(start, state)
      modifies receiver, this`state, this`trace, this`raised, this`pendingChunks
      ensures Valid()
      ensures match r
              case Ok(Some(chunk)) =>
                && state.hand == collected + chunk && state.lastTaken == |chunk|
                && state.history == start.history && Extended(start, state)
                && |P.Ahead(state)| < |P.Ahead(old(state))|
              case Ok(None) =>
                && state.hand == collected && P.AtEnd(state)
                && state.history == start.history + [P.EndSeen] && Extended(start, state)
              case Err(e) => Blamed(e, cancellable) && Dropped(start, state, e, collected)
      ensures raised ==> old(raised) || r.Err?
      ensures old(P.AtEnd(state)) ==> r == Ok(None) || r == Err(Cancelled)
    {
      ghost var before := state;
      r := ReadNext(cancellable);
      match r
      case Ok(Some(chunk)) => TookExtended(start, before, state, chunk);
      case Ok(None) => EndExtended(start, before, state);
      case Err(e) => FailExtended(start, before, state, e);
    }

    /** The next chunk, or as much of it as there is room for. */
    method CollectNext(room: nat, ghost collected: Bytes, cancellable: bool, ghost start: P.State)
      returns (r: Result<Option<Bytes>, ReadError>)
      requires Valid() && fullyConsumedBody.None? && room > 0 && start.hand == []
      requires state.hand == collected && state.history == start.history && Extended(start, state)
      modifies receiver, this`state, this`trace, this`raised, this`pendingChunks
      ensures Valid()
      ensures match r
              case Ok(Some(kept)) =>
                && state.hand == collected + kept && |kept| <= room
                && state.history == start.history && Extended(start, state)
                && (|kept| == room || |P.Ahead(state)| < |P.Ahead(old(state))|)
              case Ok(None) =>
                && state.hand == collected && P.AtEnd(state)
                && state.history == start.history + [P.EndSeen] && Extended(start, state)
              case Err(e) => Blamed(e, cancellable) && Dropped(start, state, e, collected)
      ensures raised ==> old(raised) || r.Err?
    {
      r := TakeOne(collected, cancellable, start);
      if r.Ok? && r.value.Some? {
        var kept := KeepAtMost(r.value.value, room, collected, start);
        r := Ok(Some(kept));
      }
    }

    /**
     * Appends chunks to `collected` until `amount` bytes are there or the body ends. A chunk that is too
     * long is split, and its tail goes back to the front of the queue.
     */
    method Collect(amount: nat, first: Bytes, cancellable: bool, ghost start: P.State)
      returns (r: Result<Bytes, ReadError>)
      requires Valid() && fullyConsumedBody.None? && start.hand == []
      requires |first| < amount && state.hand == first
      requires state.history == start.history && Extended(start, state)
      modifies receiver, this`state, this`trace, this`raised, this`pendingChunks
      ensures Valid()
      ensures match r
              case Ok(collected) =>
                && state.hand == collected
                && (state.history == start.history || state.history == start.history + [P.EndSeen])
                && Extended(start, state)
                && (|collected| == amount || (|collected| < amount && P.AtEnd(state)))
              case Err(e) =>
                Blamed(e, cancellable) && exists lost | |lost| < amount :: Dropped(start, state, e, lost)
      ensures raised ==> old(raised) || r.Err?
    {
      var collected := first;
      var remaining: nat := amount - |first|;
      while remaining > 0
        invariant Valid() && state.hand == collected && |collected| + remaining == amount
        invariant state.history == start.history && Extended(start, state) && (raised ==> old(raised))
        decreases remaining > 0, |P.Ahead(state)|
      {
        var next := CollectNext(remaining, collected, cancellable, start);
        match next
        case Ok(Some(kept)) =>
          remaining := remaining - |kept|;
          collected := collected + kept;
        case Ok(None) =>
          return Ok(collected);
        case Err(e) =>
          return Err(e);
      }
      r := Ok(collected);
    }

    method Read(amount: nat, cancellable: bool) returns (r: Result<Option<Bytes>, ReadError>)
      requires Idle()
      modifies receiver, this`state, this`trace, this`raised, this`pendingChunks, this`readBytes
      ensures Idle()
      ensures amount == 0 ==> r == Ok(Some([])) && state == old(state)
      ensures amount > 0 ==> ReadOutcome(old(state), old(fullyConsumedBody).Some?, r, amount, cancellable)
      ensures raised ==> old(raised) || r.Err?
      // In the whole body it is the next piece, and exactly so for a caller to whom no call has raised
      ensures r.Ok? ==>
                var piece := if r.value.Some? then r.value.value else [];
                && piece <= old(LeftOver()) && LeftOver() == old(LeftOver())[|piece|..]
                && readBytes == old(readBytes) + |piece|
                && (Safe() ==> piece == old(LeftOver())[..Min(amount, |old(LeftOver())|)])
    {
      if amount == 0 {
        return Ok(Some([]));
      }
      ghost var start, startTrace := state, trace;
      r := ReadSome(amount, cancellable);
      if r.Ok? {
        ReadPiece(if r.value.Some? then r.value.value else [], amount, start, startTrace);
      }
    }

    /** What a read of a positive amount does, seen from the state `s` before it. */
    ghost predicate ReadOutcome(s: P.State, consumed: bool, r: Result<Option<Bytes>, ReadError>, amount: nat, cancellable: bool)
      reads this
    {
      && (match r
          // Fewer bytes than asked for only at the end of the body
          case Ok(Some(b)) => Returned(s, state, b) && |b| <= amount && (|b| < amount ==> P.AtEnd(state))
          case Ok(None) => P.AtEnd(state) && Returned(s, state, [])
          case Err(e) => Blamed(e, cancellable) && exists lost | |lost| < amount :: Dropped(s, state, e, lost))
      && (r.Ok? && Clean(state) ==> ExactlyNext(s, state, if r.value.Some? then r.value.value else [], amount))
      && (P.AtEnd(s) || consumed ==> r == Ok(None) || r == Err(Cancelled))
      // None exactly if there was not even an empty chunk left, and empty bytes if there were only empty chunks
      && (r.Ok? && (Clean(state) || Unbroken(state)) ==>
            && (r.value.None? <==> P.Ahead(s) == [])
            && (r.value == Some([]) ==> P.Ahead(s) != [] && Flat(P.Ahead(s)) == []))
    }

    lemma EndOutcome(s: P.State, consumed: bool, amount: nat, cancellable: bool)
      requires Valid() && SawEnd(s, state) && s.hand == []
      ensures Idle() && ReadOutcome(s, consumed, Ok(None), amount, cancellable)
    {
      assert Clean(state) || Unbroken(state) ==> P.Ahead(s) == [] by {
        if Clean(state) || Unbroken(state) { EndIsEmpty(whole, config, trace, s, state); }
      }
      assert Returned(s, state, []) by { EndReturned(s, state); }
      assert Clean(state) ==> ExactlyNext(s, state, [], amount) by { ReturnedExactly(s, state, [], amount); }
    }

    lemma FailOutcome(s: P.State, consumed: bool, e: ReadError, amount: nat, cancellable: bool)
      requires Valid() && CallFailed(s, state, e) && s.hand == [] && Blamed(e, cancellable) && amount > 0
      requires P.AtEnd(s) || consumed ==> e.Cancelled?
      ensures Idle() && ReadOutcome(s, consumed, Err(e), amount, cancellable)
    {
      EmptyDropped(s, state, e);
      var none: Bytes := [];
      assert |none| < amount;
    }

    lemma PieceOutcome(s: P.State, b: Bytes, amount: nat, cancellable: bool)
      requires Idle() && Returned(s, state, b) && |b| <= amount && (|b| < amount ==> P.AtEnd(state)) && amount > 0
      requires P.Ahead(s) != [] && (Clean(state) ==> ExactlyNext(s, state, b, amount))
      ensures ReadOutcome(s, false, Ok(Some(b)), amount, cancellable)
    {
      if b == [] && (Clean(state) || Unbroken(state)) { EmptyPiece(whole, config, trace, s, state); }
      if P.AtEnd(s) { AtEndAhead(s); }
    }

    method ReadSome(amount: nat, cancellable: bool) returns (r: Result<Option<Bytes>, ReadError>)
      requires Idle() && amount > 0
      modifies receiver, this`state, this`trace, this`raised, this`pendingChunks, this`readBytes
      ensures Idle()
      ensures ReadOutcome(old(state), old(fullyConsumedBody).Some?, r, amount, cancellable)
      ensures raised ==> old(raised) || r.Err?
    {
      ghost var start, consumed := state, fullyConsumedBody.Some?;
      var next := ReadNext(cancellable);
      match next
      case Ok(None) =>
        EndOutcome(start, consumed, amount, cancellable);
        r := Ok(None);
      case Err(e) =>
        FailOutcome(start, consumed, e, amount, cancellable);
        r := Err(e);
      case Ok(Some(first)) =>
        r := Fill(amount, first, cancellable, start);
        if r.Ok? {
          PieceOutcome(start, r.value.value, amount, cancellable);
        }
    }

    /** What a read returned, as a piece of the whole body. */
    lemma ReadPiece(b: Bytes, amount: nat, start: P.State, startTrace: seq<P.Step>)
      requires Idle() && P.IsRun(whole, config, startTrace, start) && start.hand == []
      requires Returned(start, state, b) && |b| <= amount && (|b| < amount ==> P.AtEnd(state)) && amount > 0
      requires Clean(state) ==> ExactlyNext(start, state, b, amount)
      ensures b <= Left(whole, start) && LeftOver() == Left(whole, start)[|b|..]
      ensures Safe() ==> b == Left(whole, start)[..Min(amount, |Left(whole, start)|)]
    {
      TakenFromLeft(whole, config, startTrace, start, trace, state, b);
      if Safe() {
        ReadFromLeft(whole, config, startTrace, start, trace, state, b, amount);
      }
    }

    /** The rest of a read whose first chunk is there. */
    method Fill(amount: nat, first: Bytes, cancellable: bool, ghost start: P.State)
      returns (r: Result<Option<Bytes>, ReadError>)
      requires Valid() && fullyConsumedBody.None? && amount > 0
      requires Took(start, state, first) && start.hand == []
      modifies receiver, this`state, this`trace, this`raised, this`pendingChunks, this`readBytes
      ensures Idle()
      ensures match r
              case Ok(Some(b)) =>
                && Returned(start, state, b) && |b| <= amount && (|b| < amount ==> P.AtEnd(state))
                && (Clean(state) ==> ExactlyNext(start, state, b, amount))
              case Ok(None) => false
              case Err(e) =>
                Blamed(e, cancellable) && exists lost | |lost| < amount :: Dropped(start, state, e, lost)
      ensures raised ==> old(raised) || r.Err?
    {
      StayExtended(start);
      TookExtended(start, start, state, first);
      if |first| >= amount {
        var head := KeepAtMost(first, amount, [], start);
        r := Finish(head, amount, start);
        return;
      }
      var rest := Collect(amount, first, cancellable, start);
      match rest
      case Err(e) => r := Err(e);
      case Ok(collected) => r := Finish(collected, amount, start);
    }

    method Finish(collected: Bytes, amount: nat, ghost start: P.State) returns (r: Result<Option<Bytes>, ReadError>)
      requires Valid() && fullyConsumedBody.None? && state.hand == collected && start.hand == []
      requires state.history == start.history || state.history == start.history + [P.EndSeen]
      requires Extended(start, state)
      requires |collected| == amount || (|collected| < amount && P.AtEnd(state))
      modifies this`state, this`trace, this`readBytes
      ensures Idle() && r == Ok(Some(collected)) && Returned(start, state, collected)
      ensures old(P.AtEnd(state)) ==> P.AtEnd(state)
      ensures Clean(state) ==> ExactlyNext(start, state, collected, amount)
    {
      assert collected[0..] == collected;
      DeliverReturned(start, state);
      CountDelivered(collected);
      ReturnedExactly(start, state, collected, amount);
      r := Ok(Some(collected));
    }

    /** The whole body, cached for later calls. */
    method ReadAll(cancellable: bool) returns (r: Result<Bytes, ReadError>)
      requires Idle()
      modifies receiver, this`state, this`trace, this`raised, this`pendingChunks, this`readBytes, this`fullyConsumedBody
      ensures Idle()
      ensures old(fullyConsumedBody).Some? ==> r == Ok(old(fullyConsumedBody).value) && state == old(state)
      // Refused after any partial read that returned bytes
      ensures r == Err(AlreadyConsumed) <==> old(fullyConsumedBody).None? && old(readBytes) > 0
      ensures r == Err(AlreadyConsumed) ==> state == old(state)
      ensures r.Ok? ==> fullyConsumedBody == Some(r.value) && P.AtEnd(state)
      ensures r.Err? ==> fullyConsumedBody == old(fullyConsumedBody) && readBytes == old(readBytes)
      ensures r.Ok? && old(fullyConsumedBody).None? ==> Returned(old(state), state, r.value)
      // The full body, unless an earlier call failed part-way and lost bytes
      ensures r.Ok? && Clean(state) ==> (r.value == P.Content(whole.frames) <==> P.LostCount(state.history) == 0)
      ensures r.Err? && !r.error.AlreadyConsumed? ==>
                Blamed(r.error, cancellable) && exists lost :: Dropped(old(state), state, r.error, lost)
      ensures r.Ok? && old(fullyConsumedBody).None? ==>
                r.value <= old(LeftOver()) && LeftOver() == old(LeftOver())[|r.value|..]
      // For a caller to whom no call has raised: the full body, without any further condition
      ensures raised ==> old(raised) || (r.Err? && !r.error.AlreadyConsumed?)
      ensures r.Ok? && Safe() ==> r.value == P.Content(whole.frames) && LeftOver() == [] && !whole.fails
      // After a read error an empty body, as a success
      ensures P.ErrorSeen in old(state.history) && old(fullyConsumedBody).None? && old(readBytes) == 0 ==>
                r == Ok([]) || r == Err(Cancelled)
    {
      if fullyConsumedBody.Some? {
        WholeResult(fullyConsumedBody.value);
        return Ok(fullyConsumedBody.value);
      }
      if readBytes > 0 {
        return Err(AlreadyConsumed);
      }
      ghost var start, startTrace := state, trace;
      if P.ErrorSeen in state.history { AfterError(); }
      r := ReadFirst(cancellable);
      if r.Ok? {
        TakenFromLeft(whole, config, startTrace, start, trace, state, r.value);
        WholeResult(r.value);
      }
    }

    /** The first whole-body read, before any call that returned bytes: every chunk that is left. */
    method ReadFirst(cancellable: bool) returns (r: Result<Bytes, ReadError>)
      requires Idle() && fullyConsumedBody.None? && readBytes == 0
      modifies receiver, this`state, this`trace, this`raised, this`pendingChunks, this`readBytes, this`fullyConsumedBody
      ensures Idle()
      ensures match r
              case Ok(bytes) => fullyConsumedBody == Some(bytes) && P.AtEnd(state) && Returned(old(state), state, bytes)
              case Err(e) =>
                && fullyConsumedBody.None? && readBytes == old(readBytes)
                && Blamed(e, cancellable) && exists lost :: Dropped(old(state), state, e, lost)
      ensures raised ==> old(raised) || r.Err?
      ensures old(P.AtEnd(state)) ==> (r.Ok? && |r.value| == 0) || r == Err(Cancelled)
    {
      ghost var start := state;
      var bytes := [];
      StayExtended(start);
      while true
        invariant Valid() && state.hand == bytes && (raised ==> old(raised))
        invariant fullyConsumedBody.None? && readBytes == 0
        invariant state.history == start.history && Extended(start, state)
        invariant old(P.AtEnd(state)) ==> P.AtEnd(state) && |bytes| == 0
        decreases |P.Ahead(state)|
      {
        var next := TakeOne(bytes, cancellable, start);
        match next
        case Ok(Some(chunk)) =>
          bytes := bytes + chunk;
        case Ok(None) =>
          DeliverAll(bytes, start);
          return Ok(bytes);
        case Err(e) =>
          return Err(e);
      }
    }

    /** A read error is the end of the body. */
    lemma AfterError()
      requires Valid() && P.ErrorSeen in state.history
      ensures P.AtEnd(state)
    {
      ErrorEndsBody(whole, config, trace, state);
    }

    /** At the end of a safe reader the calls have returned the whole body. */
    lemma SafeEnd()
      requires Idle() && Safe() && P.AtEnd(state)
      ensures P.DeliveredBytes(state.history) == P.Content(whole.frames) && LeftOver() == [] && !whole.fails
    {
      UnbrokenEnd(whole, config, trace, state);
      NothingLeft(whole, config, trace, state);
      P.NothingLost(state.history);
    }

    /** What a whole-body read returned, compared with the whole body. */
    lemma WholeResult(bytes: Bytes)
      requires Idle() && fullyConsumedBody == Some(bytes)
      ensures Clean(state) ==> (bytes == P.Content(whole.frames) <==> P.LostCount(state.history) == 0)
      ensures Safe() ==> bytes == P.Content(whole.frames) && LeftOver() == [] && !whole.fails
    {
      if Clean(state) { WholeBody(whole, config, trace, state); }
      if Safe() { SafeEnd(); }
    }

    method DeliverAll(bytes: Bytes, ghost start: P.State)
      requires Valid() && fullyConsumedBody.None? && readBytes == 0
      requires state.hand == bytes && start.hand == [] && P.AtEnd(state)
      requires state.history == start.history + [P.EndSeen] && Extended(start, state)
      modifies this`state, this`trace, this`readBytes, this`fullyConsumedBody
      ensures Idle() && fullyConsumedBody == Some(bytes) && P.AtEnd(state) && Returned(start, state, bytes)
    {
      assert bytes[0..] == bytes;
      DeliverReturned(start, state);
      CountDelivered(bytes);
      fullyConsumedBody := Some(bytes);
    }

    /** Asks the task to stop; it does so at its next turn. */
    method Close()
      requires Idle()
      modifies receiver, this`state, this`trace, this`closed
      ensures Idle() && closed
      ensures receiver != null ==> receiver.closeRequested
      ensures state.history == old(state.history) && P.Ahead(state) == P.Ahead(old(state))
    {
      if receiver != null {
        receiver.closeRequested := true;
      }
      closed := true;
      Log(P.RequestClose);
    }

    /** Reads chunks until the limit is reached or the body ends. */
    static method ReadLimit(source: P.Source, config: P.ReadConfig) returns (p: P.Prefetched)
      ensures p == P.Prefetch(source, config)
      ensures match config
              case NoBody => p == P.Fetched([], false, source)
              case FullyConsumed => PrefetchedTo(source, None, p)
              case Streamed(limit) => PrefetchedTo(source, Some(limit), p)
    {
      PrefetchMeans(source, config);
      var byteLimit: Option<nat>;
      match config {
        case NoBody => return P.Fetched([], false, source);
        case FullyConsumed => byteLimit := None;
        case Streamed(limit) =>
          if limit == 0 {
            return P.Fetched([], true, source);
          }
          byteLimit := Some(limit);
      }
      p := ReadChunks(source, byteLimit);
    }

    static method ReadChunks(source: P.Source, byteLimit: Option<nat>) returns (p: P.Prefetched)
      ensures p == P.PrefetchUpTo(source, byteLimit, 0)
    {
      var initChunks: seq<Bytes> := [];
      var hasMore := true;
      var consumedBytes: nat := 0;
      var rest := source;
      while hasMore
        invariant hasMore ==>
                    P.PrefetchUpTo(source, byteLimit, 0)
                    == Prepend(initChunks, P.PrefetchUpTo(rest, byteLimit, consumedBytes))
        invariant !hasMore ==> P.PrefetchUpTo(source, byteLimit, 0) == P.Fetched(initChunks, false, rest)
        decreases hasMore, |rest.frames|
      {
        if rest.frames == [] {
          if rest.fails {
            return P.PrefetchFailed;
          }
          hasMore := false;
        } else {
          var frame := rest.frames[0];
          rest := rest.(frames := rest.frames[1..]);
          if frame.Data? {
            PrependNext(initChunks, frame.bytes, P.PrefetchUpTo(rest, byteLimit, consumedBytes + |frame.bytes|));
            consumedBytes := consumedBytes + |frame.bytes|;
            initChunks := initChunks + [frame.bytes];
            if byteLimit.Some? && consumedBytes >= byteLimit.value {
              return P.Fetched(initChunks, true, rest);
            }
          }
        }
      }
      p := P.Fetched(initChunks, false, rest);
    }

    /**
     * Starts from the body of a response. Nothing is read of no body, everything of a body to be consumed, and of a
     * streamed one just as much as reaches the limit: with limit zero nothing. A read error on the way leaves no
     * reader; one that comes later is for the reader task to meet.
     */
    static method Initialize(source: P.Source, config: P.ReadConfig, mayStop: bool)
      returns (r: Result<BodyReader, ReadError>)
      ensures r.Err? ==> r.error == ReadFailed && source.fails
      ensures config.NoBody? ==> r.Ok? && r.value.receiver == null && r.value.pendingChunks == []
      ensures config.FullyConsumed? ==>
                && (r.Err? <==> source.fails)
                && (r.Ok? ==> r.value.receiver == null && r.value.pendingChunks == P.AllData(source.frames))
      ensures config.Streamed? ==>
                && (r.Err? <==> source.fails && |P.Content(source.frames)| < config.limit)
                && (r.Ok? ==> (r.value.receiver != null <==> |P.Content(source.frames)| >= config.limit))
                && (r.Ok? && r.value.receiver == null ==> r.value.pendingChunks == P.AllData(source.frames))
      ensures config == P.Streamed(0) ==>
                r.Ok? && r.value.pendingChunks == [] && r.value.receiver != null && r.value.receiver.source == source
      ensures r.Ok? && r.value.receiver != null && config.limit > 0 ==>
                && JustReaches(r.value.pendingChunks, config.limit)
                && r.value.pendingChunks + P.AllData(r.value.receiver.source.frames) == P.AllData(source.frames)
      ensures r.Ok? && r.value.receiver != null ==>
                var task := r.value.receiver;
                && fresh(task) && task.source.fails == source.fails && task.bufferSize == config.limit
                && task.task == P.Polling && task.buffer == Some([]) && task.queue == [] && !task.closeRequested
      ensures r.Err? <==> P.Start(source, config).None?
      ensures r.Ok? ==>
                && fresh(r.value) && r.value.Idle() && r.value.whole == source && r.value.config == config
                && r.value.trace == [] && r.value.fullyConsumedBody.None?
                && r.value.mayStop == mayStop && !r.value.closed && !r.value.raised && r.value.readBytes == 0
                && r.value.LeftOver() == P.Content(source.frames)
                && Some(r.value.state) == P.Start(source, config)
    {
      PrefetchKeepsBody(source, if config.Streamed? then Some(config.limit) else None, 0);
      var prefetched := ReadLimit(source, config);
      if prefetched.PrefetchFailed? {
        return Err(ReadFailed);
      }
      var receiver: Reader? := null;
      if config.Streamed? {
        if prefetched.hasMore {
          receiver := new Reader.Start(prefetched.rest, config.limit);
        }
      } else {
        assert !prefetched.hasMore; // The response is fully consumed
      }
      var reader := new BodyReader(receiver, prefetched.chunks, mayStop, source, config);
      r := Ok(reader);
    }

    constructor (receiver: Reader?, initChunks: seq<Bytes>, mayStop: bool, ghost whole: P.Source, ghost config: P.ReadConfig)
      requires P.Start(whole, config).Some?
      requires var s := P.Start(whole, config).value;
               && s.pending == initChunks
               && s.link == (if receiver == null then None else Some(receiver.Link()))
               && (receiver != null ==> receiver.rxOpen && !receiver.closeRequested)
      ensures Idle() && this.receiver == receiver && this.whole == whole && this.config == config
      ensures trace == [] && fullyConsumedBody.None? && this.mayStop == mayStop && !closed && !raised && readBytes == 0
    {
      this.receiver := receiver;
      this.pendingChunks := initChunks;
      this.fullyConsumedBody := None;
      this.readBytes := 0;
      this.whole := whole;
      this.config := config;
      this.state := P.Start(whole, config).value;
      this.trace := [];
      this.mayStop := mayStop;
      this.closed, this.raised := false, false;
    }
  }

  /** The prefetch result with chunks that were read before it. */
  function Prepend(chunks: seq<Bytes>, p: P.Prefetched): P.Prefetched {
    if p.Fetched? then p.(chunks := chunks + p.chunks) else p
  }

  lemma PrependNext(chunks: seq<Bytes>, chunk: Bytes, p: P.Prefetched)
    ensures Prepend(chunks, Prepend([chunk], p)) == Prepend(chunks + [chunk], p)
  {
    if p.Fetched? {
      Associative(chunks, [chunk], p.chunks);
    }
  }
}
