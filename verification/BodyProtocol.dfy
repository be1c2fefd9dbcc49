/**
 * The streamed response body as a labelled transition system.
 *
 * A prefetch phase reads the body up to a limit. What is left goes to a spawned reader task, which batches
 * chunks and sends them over a channel of capacity two. The consumer takes chunks from the front of a
 * pending queue that it refills from the channel. Closing, read errors, cancelled calls, an aborted task
 * and a dropped receiver can come between any two steps.
 */
module BodyProtocol {
  import opened Wrappers
  import opened Lists
  import opened Chunks

  /** One frame of the response body. */
  datatype Frame = Data(bytes: Bytes) | Trailers

  /** What the connection still has to give: the frames to come, and then an end or an error. */
  datatype Source = Source(frames: seq<Frame>, fails: bool)

  datatype ReadConfig = FullyConsumed | Streamed(limit: nat) | NoBody

  // ----- Prefetch -----

  datatype Prefetched = Fetched(chunks: seq<Bytes>, hasMore: bool, rest: Source) | PrefetchFailed

  /** The chunks read before the response is handed out; a missing limit reads everything. */
  function PrefetchUpTo(source: Source, limit: Option<nat>, consumed: nat): Prefetched
    decreases |source.frames|
  {
    if source.frames == [] then
      if source.fails then PrefetchFailed else Fetched([], false, source)
    else
      var rest := source.(frames := source.frames[1..]);
      match source.frames[0]
      case Trailers => PrefetchUpTo(rest, limit, consumed)
      case Data(bytes) =>
        if limit.Some? && consumed + |bytes| >= limit.value then
          Fetched([bytes], true, rest)
        else
          var more := PrefetchUpTo(rest, limit, consumed + |bytes|);
          if more.Fetched? then more.(chunks := [bytes] + more.chunks) else more
  }

  function Prefetch(source: Source, config: ReadConfig): Prefetched {
    match config
    case NoBody => Fetched([], false, source)
    case FullyConsumed => PrefetchUpTo(source, None, 0)
    case Streamed(limit) =>
      if limit == 0 then Fetched([], true, source) else PrefetchUpTo(source, Some(limit), 0)
  }

  // ----- The reader task and its channel -----

  const CHANNEL_CAPACITY: nat := 2

  datatype Message = Batch(chunks: seq<Bytes>) | Failure

  /** Where the reader task is: waiting for a frame, waiting in a send, or gone. */
  datatype Task = Polling | Sending(msg: Message, last: bool) | Ended

  datatype Link = Link(
    source: Source,
    task: Task,
    buffer: Option<seq<Bytes>>,
    totBytes: nat,
    limit: nat,
    queue: seq<Message>,
    closeRequested: bool,
    rxOpen: bool)

  /** The task ends: its future goes away with the body, the buffer, the sender and the permit. */
  function End(l: Link): Link {
    l.(task := Ended, buffer := None, totBytes := 0, source := Source([], false))
  }

  /** Adds a non-empty chunk to the batch, and starts to send the batch once it is large enough. */
  function SendChunk(l: Link, chunk: Bytes): Link {
    match l.buffer
    case None => End(l)
    case Some(buffer) =>
      if l.totBytes + |chunk| < l.limit then
        l.(buffer := Some(buffer + [chunk]), totBytes := l.totBytes + |chunk|)
      else
        l.(buffer := Some([]), totBytes := 0, task := Sending(Batch(buffer + [chunk]), false))
  }

  function Finalize(l: Link): Link {
    match l.buffer
    case None => End(l)
    case Some(buffer) =>
      if buffer == [] then End(l)
      else l.(buffer := None, task := Sending(Batch(buffer), true))
  }

  /** One turn of the task's loop: the next frame, the end of the body, or a read error arrives. */
  function PollFrame(l: Link): Link
    requires l.task.Polling?
  {
    if l.source.frames == [] then
      if l.source.fails then l.(task := Sending(Failure, true)) else Finalize(l)
    else
      var next := l.(source := l.source.(frames := l.source.frames[1..]));
      match l.source.frames[0]
      case Trailers => next
      case Data(bytes) => if bytes == [] then next else SendChunk(next, bytes)
  }

  /** The pending send goes on: it fails without a receiver, and waits while the channel is full. */
  function CompleteSend(l: Link): Link
    requires l.task.Sending?
  {
    if !l.rxOpen then End(l)
    else if |l.queue| < CHANNEL_CAPACITY then
      var sent := l.(queue := l.queue + [l.task.msg]);
      if l.task.last then End(sent) else sent.(task := Polling)
    else l
  }

  // ----- The whole system -----

  /** What the consumer has seen. A call that fails part-way loses the bytes it had collected. */
  datatype Event = Delivered(bytes: Bytes) | Lost(bytes: Bytes) | ErrorSeen | EndSeen

  /**
   * `hand` holds the bytes that the call in progress has taken, `lastTaken` how many of them came with the
   * last chunk. `cutShort` records that the body was cut by a close, an abort, a dropped receiver or the
   * NoBody configuration; `failed` that the task met a read error.
   */
  datatype State = State(
    link: Option<Link>,
    pending: seq<Bytes>,
    hand: Bytes,
    lastTaken: nat,
    cutShort: bool,
    failed: bool,
    history: seq<Event>)

  datatype Step =
    | FrameArrives | SendProceeds | CloseObserved | TaskAborted
    | Receive | Take | PutBack(count: nat) | Deliver | CallCancelled | SeeEnd | RequestClose | DropReceiver

  function Start(source: Source, config: ReadConfig): Option<State> {
    match Prefetch(source, config)
    case PrefetchFailed => None
    case Fetched(chunks, hasMore, rest) =>
      var link := if hasMore && config.Streamed?
                  then Some(Link(rest, Polling, Some([]), 0, config.limit, [], false, true)) else None;
      Some(State(link, chunks, [], 0, config.NoBody?, false, []))
  }

  predicate CanReceive(s: State) {
    s.pending == [] && s.link.Some? && s.link.value.rxOpen && s.link.value.queue != []
  }

  predicate CanSeeEnd(s: State) {
    s.pending == [] && (s.link.None? || (s.link.value.rxOpen && s.link.value.queue == [] && s.link.value.task.Ended?))
  }

  /** The effect of a step; a step that is not enabled changes nothing. */
  function Apply(s: State, step: Step): State {
    match step
    case FrameArrives =>
      if s.link.Some? && s.link.value.task.Polling? then
        var l := s.link.value;
        s.(link := Some(PollFrame(l)), failed := s.failed || (l.source.frames == [] && l.source.fails))
      else s
    case SendProceeds =>
      if s.link.Some? && s.link.value.task.Sending? then s.(link := Some(CompleteSend(s.link.value))) else s
    case CloseObserved =>
      if s.link.Some? && s.link.value.closeRequested && !s.link.value.task.Ended?
      then s.(link := Some(End(s.link.value)), cutShort := true) else s
    case TaskAborted =>
      if s.link.Some? && !s.link.value.task.Ended?
      then s.(link := Some(End(s.link.value)), cutShort := true) else s
    case RequestClose =>
      if s.link.Some? then s.(link := Some(s.link.value.(closeRequested := true))) else s
    case DropReceiver =>
      if s.link.Some? then s.(link := Some(s.link.value.(rxOpen := false, queue := [])), cutShort := true) else s
    case Receive =>
      if CanReceive(s) then
        var l := s.link.value;
        var popped := s.(link := Some(l.(queue := l.queue[1..])), lastTaken := 0);
        match l.queue[0]
        case Failure => popped.(hand := [], history := s.history + [Lost(s.hand), ErrorSeen])
        case Batch(chunks) =>
          // A batch without chunks would look like the end of the body
          if chunks == [] then popped.(history := s.history + [EndSeen]) else popped.(pending := chunks)
      else s
    case Take =>
      if s.pending != []
      then s.(pending := s.pending[1..], hand := s.hand + s.pending[0], lastTaken := |s.pending[0]|) else s
    case PutBack(count) =>
      if 0 < count <= s.lastTaken <= |s.hand| then
        var keep := |s.hand| - count;
        s.(pending := [s.hand[keep..]] + s.pending, hand := s.hand[..keep], lastTaken := 0)
      else s
    case Deliver => s.(hand := [], lastTaken := 0, history := s.history + [Delivered(s.hand)])
    case CallCancelled => s.(hand := [], lastTaken := 0, history := s.history + [Lost(s.hand)])
    case SeeEnd => if CanSeeEnd(s) then s.(lastTaken := 0, history := s.history + [EndSeen]) else s
  }

  function Replay(s: State, steps: seq<Step>): State {
    if steps == [] then s else Apply(Replay(s, steps[..|steps| - 1]), steps[|steps| - 1])
  }

  /** The state `s` is what the steps of `trace`, in any interleaving, make of a response body. */
  ghost predicate IsRun(source: Source, config: ReadConfig, trace: seq<Step>, s: State) {
    Start(source, config).Some? && s == Replay(Start(source, config).value, trace)
  }

  lemma ReplayAppend(s: State, steps: seq<Step>, step: Step)
    ensures Replay(s, steps + [step]) == Apply(Replay(s, steps), step)
  {
    assert (steps + [step])[..|steps|] == steps;
  }

  lemma RunOn(source: Source, config: ReadConfig, trace: seq<Step>, s: State, step: Step)
    requires IsRun(source, config, trace, s)
    ensures IsRun(source, config, trace + [step], Apply(s, step))
  {
    ReplayAppend(Start(source, config).value, trace, step);
  }

  // ----- What the bytes are -----

  /** The non-empty data chunks of the frames, in order. */
  function DataChunks(frames: seq<Frame>): seq<Bytes> {
    if frames == [] then []
    else if frames[0].Data? && frames[0].bytes != [] then [frames[0].bytes] + DataChunks(frames[1..])
    else DataChunks(frames[1..])
  }

  /** All data chunks of the frames in order, those without bytes included. */
  function AllData(frames: seq<Frame>): seq<Bytes> {
    if frames == [] then []
    else (if frames[0].Data? then [frames[0].bytes] else []) + AllData(frames[1..])
  }

  /** The whole body. */
  function Content(frames: seq<Frame>): Bytes {
    Flat(DataChunks(frames))
  }

  function MessageChunks(m: Message): seq<Bytes> {
    if m.Batch? then m.chunks else []
  }

  function QueuedChunks(queue: seq<Message>): seq<Bytes> {
    if queue == [] then [] else MessageChunks(queue[0]) + QueuedChunks(queue[1..])
  }

  /** The chunks that the task will still send, if nothing cuts it short. */
  function TaskChunks(l: Link): seq<Bytes> {
    match l.task
    case Polling => (if l.buffer.Some? then l.buffer.value else []) + DataChunks(l.source.frames)
    case Sending(Failure, _) => []
    case Sending(Batch(chunks), last) => chunks + (if last then [] else DataChunks(l.source.frames))
    case Ended => []
  }

  function LinkChunks(link: Option<Link>): seq<Bytes> {
    if link.None? || !link.value.rxOpen then [] else QueuedChunks(link.value.queue) + TaskChunks(link.value)
  }

  /** The chunks ahead of the consumer. */
  function Ahead(s: State): seq<Bytes> {
    s.pending + LinkChunks(s.link)
  }

  function EventBytes(e: Event): Bytes {
    if e.Delivered? || e.Lost? then e.bytes else []
  }

  /** Everything taken from the body so far by calls that are over, in order. */
  function Emitted(history: seq<Event>): Bytes {
    if history == [] then [] else Emitted(history[..|history| - 1]) + EventBytes(history[|history| - 1])
  }

  /** What the calls returned, in order. */
  function DeliveredBytes(history: seq<Event>): Bytes {
    if history == [] then []
    else
      var e := history[|history| - 1];
      DeliveredBytes(history[..|history| - 1]) + (if e.Delivered? then e.bytes else [])
  }

  function LostCount(history: seq<Event>): nat {
    if history == [] then 0
    else
      var e := history[|history| - 1];
      LostCount(history[..|history| - 1]) + (if e.Lost? then |e.bytes| else 0)
  }

  lemma EmittedAppend(history: seq<Event>, e: Event)
    ensures Emitted(history + [e]) == Emitted(history) + EventBytes(e)
    ensures DeliveredBytes(history + [e]) == DeliveredBytes(history) + (if e.Delivered? then e.bytes else [])
    ensures LostCount(history + [e]) == LostCount(history) + (if e.Lost? then |e.bytes| else 0)
  {
    assert (history + [e])[..|history|] == history;
  }

  /** Without losses the calls returned everything that was taken. */
  lemma {:induction false} NothingLost(history: seq<Event>)
    ensures |Emitted(history)| == |DeliveredBytes(history)| + LostCount(history)
    ensures LostCount(history) == 0 ==> DeliveredBytes(history) == Emitted(history)
  {
    if history != [] {
      NothingLost(history[..|history| - 1]);
    }
  }

  lemma {:induction false} QueuedAppend(queue: seq<Message>, m: Message)
    ensures QueuedChunks(queue + [m]) == QueuedChunks(queue) + MessageChunks(m)
  {
    if queue == [] {
      assert queue + [m] == [m];
    } else {
      QueuedAppend(queue[1..], m);
      assert (queue + [m])[1..] == queue[1..] + [m];
      Associative(MessageChunks(queue[0]), QueuedChunks(queue[1..]), MessageChunks(m));
    }
  }

  // ----- The invariant -----

  predicate LinkInv(l: Link) {
    && |l.queue| <= CHANNEL_CAPACITY
    && (forall m <- l.queue :: m.Batch? ==> m.chunks != [])
    && (match l.task
        case Polling =>
          l.buffer.Some? && l.totBytes == |Flat(l.buffer.value)| && l.totBytes < Max(l.limit, 1)
        case Sending(Failure, last) =>
          last && l.buffer.Some? && l.totBytes == |Flat(l.buffer.value)| && l.totBytes < Max(l.limit, 1)
        case Sending(Batch(chunks), last) =>
          && chunks != []
          && (if last then l.buffer.None? && l.source.frames == [] && !l.source.fails
              else l.buffer == Some([]) && l.totBytes == 0)
        case Ended => l.buffer.None? && l.totBytes == 0)
  }

  /** A read error is still on its way to the consumer. */
  predicate FailurePending(link: Option<Link>) {
    link.Some? && (Failure in link.value.queue || link.value.task == Sending(Failure, true))
  }

  /** The task will still meet the read error at the end of the frames. */
  predicate FailureAhead(link: Option<Link>) {
    link.Some? && link.value.source.fails && (link.value.task.Polling? || (link.value.task.Sending? && !link.value.task.last))
  }

  /** Nothing is ahead of the consumer, and nothing will be. */
  predicate AtEnd(s: State) {
    s.pending == [] && (s.link.None? || (s.link.value.queue == [] && s.link.value.task.Ended?))
  }

  ghost predicate Inv(whole: Source, s: State) {
    && (s.link.Some? ==> LinkInv(s.link.value))
    && s.lastTaken <= |s.hand|
    // Conservation: taken, in hand and ahead make the body, or a prefix of it once it was cut
    && Emitted(s.history) + s.hand + Flat(Ahead(s)) <= Content(whole.frames)
    && (!s.cutShort && !s.failed ==> Emitted(s.history) + s.hand + Flat(Ahead(s)) == Content(whole.frames))
    // A read error is never made up, and never swallowed
    && (s.failed || ErrorSeen in s.history || FailurePending(s.link) ==> whole.fails)
    && (s.link.Some? && s.link.value.source.fails ==> whole.fails)
    && (s.failed && !s.cutShort ==> ErrorSeen in s.history || FailurePending(s.link))
    && (whole.fails && !s.failed && !s.cutShort ==> FailureAhead(s.link))
    // The end is final
    && (EndSeen in s.history ==> AtEnd(s) && s.lastTaken == 0)
    && (s.link.Some? && !s.link.value.rxOpen ==> s.cutShort)
  }
}
