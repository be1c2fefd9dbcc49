/** A run that shows what a failed call costs the whole-body read that comes after it. */
module BodyCounterexample {
  import opened Wrappers
  import opened Chunks
  import opened BodyProtocol
  import opened BodyProofs
  import opened BodyCalls
  import R = BodyReader

  lemma RunTwo(source: Source, config: ReadConfig, trace: seq<Step>, s: State, a: Step, b: Step)
    requires IsRun(source, config, trace, s)
    ensures IsRun(source, config, trace + [a, b], Apply(Apply(s, a), b))
  {
    RunOn(source, config, trace, s, a);
    RunOn(source, config, trace + [a], Apply(s, a), b);
    assert trace + [a] + [b] == trace + [a, b];
  }

  /** The link of a stream with limit 0 between two frames. */
  function Waiting(frames: seq<Frame>): Link {
    Link(Source(frames, false), Polling, Some([]), 0, 0, [], false, true)
  }

  function Reading(frames: seq<Frame>, hand: Bytes, lastTaken: nat, history: seq<Event>): State {
    State(Some(Waiting(frames)), [], hand, lastTaken, false, false, history)
  }

  /** The call waits for a message. */
  predicate Awaiting(s: State) {
    s.pending == [] && s.link.Some? && s.link.value.rxOpen
  }

  /** How one chunk of the stream goes all the way to the hand of a call. */
  lemma ChunkSteps(b: Bytes, rest: seq<Frame>, history: seq<Event>)
    requires b != []
    ensures var s := Reading([Data(b)] + rest, [], 0, history);
            var t := Apply(s, FrameArrives);
            var u := Apply(t, SendProceeds);
            && Awaiting(s) && Awaiting(t) && CanReceive(u) && Apply(u, Receive).pending != []
            && Apply(Apply(u, Receive), Take) == Reading(rest, b, |b|, history)
  {
    var s := Reading([Data(b)] + rest, [], 0, history);
    var full := Waiting(rest).(task := Sending(Batch([b]), false));
    assert PollFrame(Waiting([Data(b)] + rest)) == full by {
      assert ([Data(b)] + rest)[1..] == rest && [] + [b] == [b];
    }
    var sent := Waiting(rest).(queue := [Batch([b])]);
    assert CompleteSend(full) == sent;
    var u := s.(link := Some(sent));
    assert Apply(Apply(s, FrameArrives), SendProceeds) == u;
    assert [Batch([b])][1..] == [];
    assert Apply(u, Receive) == u.(link := Some(Waiting(rest)), pending := [b]);
  }

  /** One chunk of the stream goes all the way to the hand of a call. */
  lemma ChunkArrives(source: Source, trace: seq<Step>, b: Bytes, rest: seq<Frame>, history: seq<Event>)
    requires b != [] && IsRun(source, Streamed(0), trace, Reading([Data(b)] + rest, [], 0, history))
    ensures IsRun(source, Streamed(0), trace + [FrameArrives, SendProceeds] + [Receive, Take],
                  Reading(rest, b, |b|, history))
  {
    var s := Reading([Data(b)] + rest, [], 0, history);
    ChunkSteps(b, rest, history);
    RunTwo(source, Streamed(0), trace, s, FrameArrives, SendProceeds);
    RunTwo(source, Streamed(0), trace + [FrameArrives, SendProceeds], Apply(Apply(s, FrameArrives), SendProceeds), Receive, Take);
  }

  /**
   * The steps of one whole-body read: it takes chunks from the queue, which it refills from the channel; while it
   * waits the task takes turns; and it is over when a wait is cancelled or when it sees the end and `gives` what it
   * has.
   */
  predicate WholeRead(s: State, steps: seq<Step>, gives: bool)
    decreases |steps|
  {
    steps != [] &&
    match steps[0]
    case FrameArrives => Awaiting(s) && WholeRead(Apply(s, steps[0]), steps[1..], gives)
    case SendProceeds => Awaiting(s) && WholeRead(Apply(s, steps[0]), steps[1..], gives)
    case Receive => CanReceive(s) && WholeRead(Apply(s, steps[0]), steps[1..], gives)
    case Take => s.pending != [] && WholeRead(Apply(s, steps[0]), steps[1..], gives)
    case CallCancelled => Awaiting(s) && steps == [CallCancelled] && !gives
    case SeeEnd => CanSeeEnd(s) && steps == [SeeEnd, Deliver] && gives
    case _ => false
  }

  lemma WholeReadTwo(s: State, a: Step, b: Step, more: seq<Step>, gives: bool)
    requires a.FrameArrives? || a.SendProceeds? ==> Awaiting(s)
    requires a.Receive? ==> CanReceive(s)
    requires b.SendProceeds? ==> Awaiting(Apply(s, a))
    requires b.Take? ==> Apply(s, a).pending != []
    requires (a.FrameArrives? && b.SendProceeds?) || (a.Receive? && b.Take?)
    requires WholeRead(Apply(Apply(s, a), b), more, gives)
    ensures WholeRead(s, [a, b] + more, gives)
  {
    var steps := [a, b] + more;
    assert steps[1..] == [b] + more && ([b] + more)[1..] == more;
    assert WholeRead(Apply(s, a), [b] + more, gives);
  }

  /** A whole-body read that goes on after a chunk has arrived. */
  lemma WholeReadChunk(b: Bytes, rest: seq<Frame>, history: seq<Event>, more: seq<Step>, gives: bool)
    requires b != [] && WholeRead(Reading(rest, b, |b|, history), more, gives)
    ensures WholeRead(Reading([Data(b)] + rest, [], 0, history), [FrameArrives, SendProceeds, Receive, Take] + more, gives)
  {
    var s := Reading([Data(b)] + rest, [], 0, history);
    ChunkSteps(b, rest, history);
    var u := Apply(Apply(s, FrameArrives), SendProceeds);
    WholeReadTwo(u, Receive, Take, more, gives);
    WholeReadTwo(s, FrameArrives, SendProceeds, [Receive, Take] + more, gives);
    assert [FrameArrives, SendProceeds] + ([Receive, Take] + more) == [FrameArrives, SendProceeds, Receive, Take] + more;
  }

  /** The end of a whole-body read that has the last chunk in hand. */
  lemma WholeReadEnds(b: Bytes, history: seq<Event>)
    ensures var s := Reading([], b, |b|, history);
            && Apply(s, FrameArrives).link == Some(End(Waiting([]))) && CanSeeEnd(Apply(s, FrameArrives))
            && WholeRead(s, [FrameArrives, SeeEnd, Deliver], true)
  {
    var s := Reading([], b, |b|, history);
    var steps := [FrameArrives, SeeEnd, Deliver];
    assert steps[1..] == [SeeEnd, Deliver];
    assert Apply(s, FrameArrives) == s.(link := Some(End(Waiting([]))));
  }

  /**
   * The body [1], [2] is streamed. A first whole-body read takes [1] and is cancelled in its second wait; a second
   * whole-body read takes [2], sees the end and returns [2] as if it were everything, with no error and no cut.
   */
  lemma LossyRun() returns (source: Source, first: seq<Step>, second: seq<Step>, s: State)
    ensures IsRun(source, Streamed(0), first + second, s)
    ensures var start := Start(source, Streamed(0)).value;
            WholeRead(start, first, false) && WholeRead(Replay(start, first), second, true)
    ensures s.history == [Lost([1]), EndSeen, Delivered([2])] && !s.cutShort && !s.failed
    ensures Content(source.frames) == [1, 2]
  {
    source := Source([Data([1]), Data([2])], false);
    ContentStep(source.frames);
    ContentStep(source.frames[1..]);
    var start := Reading(source.frames, [], 0, []);
    assert Start(source, Streamed(0)).value == start;
    assert source.frames == [Data([1])] + [Data([2])];
    assert IsRun(source, Streamed(0), [], start);

    ChunkArrives(source, [], [1], [Data([2])], []);
    first := [FrameArrives, SendProceeds, Receive, Take] + [CallCancelled];
    var taken := Reading([Data([2])], [1], 1, []);
    assert WholeRead(taken, [CallCancelled], false);
    WholeReadChunk([1], [Data([2])], [], [CallCancelled], false);
    assert [] + [FrameArrives, SendProceeds] + [Receive, Take] == [FrameArrives, SendProceeds, Receive, Take];
    RunOn(source, Streamed(0), [FrameArrives, SendProceeds, Receive, Take], taken, CallCancelled);

    var lost := [] + [Lost([1])];
    assert Apply(taken, CallCancelled) == Reading([Data([2])], [], 0, lost);
    assert [Data([2])] == [Data([2])] + [];
    ChunkArrives(source, first, [2], [], lost);
    s := EndAndDeliver(source, first + [FrameArrives, SendProceeds] + [Receive, Take], [2], lost);
    second := [FrameArrives, SendProceeds, Receive, Take] + [FrameArrives, SeeEnd, Deliver];
    WholeReadEnds([2], lost);
    WholeReadChunk([2], [], lost, [FrameArrives, SeeEnd, Deliver], true);
    assert first + [FrameArrives, SendProceeds] + [Receive, Take] + [FrameArrives, SeeEnd] + [Deliver] == first + second;
  }

  lemma EndAndDeliver(source: Source, trace: seq<Step>, b: Bytes, history: seq<Event>) returns (s: State)
    requires IsRun(source, Streamed(0), trace, Reading([], b, |b|, history))
    ensures IsRun(source, Streamed(0), trace + [FrameArrives, SeeEnd] + [Deliver], s)
    ensures s.history == history + [EndSeen, Delivered(b)] && !s.cutShort && !s.failed
  {
    var r := Reading([], b, |b|, history);
    RunTwo(source, Streamed(0), trace, r, FrameArrives, SeeEnd);
    var ended := r.(link := Some(End(Waiting([]))));
    assert Apply(r, FrameArrives) == ended;
    assert CanSeeEnd(ended);
    s := Apply(ended, SeeEnd);
    RunOn(source, Streamed(0), trace + [FrameArrives, SeeEnd], s, Deliver);
    s := Apply(s, Deliver);
  }

  /**
   * Every whole-body read that is cancelled after it had collected something is followed by one that, on a clean
   * run, silently returns the rest: what was lost and what is returned make the body.
   */
  method BytesTwice(reader: R.BodyReader) returns (first: Result<Bytes, ReadError>, second: Result<Bytes, ReadError>,
                                                   ghost lost: Bytes)
    requires reader.Idle() && reader.readBytes == 0 && reader.fullyConsumedBody.None?
    modifies reader.receiver, reader`state, reader`trace, reader`raised, reader`pendingChunks, reader`readBytes, reader`fullyConsumedBody
    ensures first == Err(Cancelled) && second.Ok? && Clean(reader.state) ==> lost + second.value == old(reader.Rest())
    ensures first == Err(Cancelled) ==> second.Ok? || (second == Err(ReadFailed) && reader.whole.fails)
    ensures first != Err(Cancelled) ==> second == first && (first.Ok? || reader.whole.fails)
  {
    ghost var start := reader.state;
    first := reader.ReadAll(true);
    second, lost := first, [];
    if first == Err(Cancelled) {
      ghost var middle := reader.state;
      lost :| Dropped(start, middle, Cancelled, lost);
      second := reader.ReadAll(false);
      if second.Ok? {
        CameTransitive(start, middle, reader.state, lost, second.value);
        AtEndAhead(reader.state);
      }
    }
  }

  /** A body of one chunk without bytes: the prefetch keeps the chunk, and nothing streams. */
  lemma EmptyChunkAhead()
    ensures var start := Start(Source([Data([])], false), Streamed(1));
            start.Some? && start.value.link.None? && Ahead(start.value) == [[]] && Flat(Ahead(start.value)) == []
  {
    var source := Source([Data([])], false);
    assert source.frames[1..] == [];
    assert Prefetch(source, Streamed(1)) == Fetched([[]], false, Source([], false));
  }

  /**
   * A chunk without bytes that the prefetch kept, at the end of the body: the first read gives empty bytes, and
   * only the second one reports the end.
   */
  method EmptyRead() returns (first: Result<Option<Bytes>, ReadError>, second: Result<Option<Bytes>, ReadError>)
    ensures first == Ok(Some([])) && second == Ok(None)
  {
    var source := Source([Data([])], false);
    EmptyChunkAhead();
    var opening := R.BodyReader.Initialize(source, Streamed(1), false);
    var reader := opening.value;
    assert Ahead(reader.state) == [[]];
    first := reader.Read(1, false);
    second := reader.Read(1, false);
  }
}
