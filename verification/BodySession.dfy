/** Programs that read a body piece by piece or as a whole: what they get is the body, sliced. */
module BodySession {
  import opened Wrappers
  import opened Chunks
  import P = BodyProtocol
  import opened BodyCalls
  import opened BodyReader

  datatype Call = NextChunk | Read(amount: nat) | All

  /** A call with what it gave: its bytes, none of them at the end of the body, or an error. */
  datatype Entry = Entry(call: Call, r: Result<Bytes, ReadError>)

  /** The bytes taken from the body so far, and whether a whole-body read has succeeded. */
  datatype Cursor = Cursor(taken: Bytes, consumed: bool)

  /** The bytes that a call took from the body; a repeated whole-body read takes none. */
  function TakenBy(consumed: bool, e: Entry): Bytes {
    if e.r.Err? || (e.call.All? && consumed) then [] else e.r.value
  }

  function Next(c: Cursor, e: Entry): Cursor {
    Cursor(c.taken + TakenBy(c.consumed, e), c.consumed || (e.call.All? && e.r.Ok?))
  }

  function After(log: seq<Entry>): Cursor {
    if log == [] then Cursor([], false) else Next(After(log[..|log| - 1]), log[|log| - 1])
  }

  /** What a call gives when `left` is left of the body. Only where chunks end is not decided by the body. */
  predicate Given(body: Bytes, left: Bytes, c: Cursor, e: Entry) {
    match e.call
    case NextChunk => e.r.Ok? && e.r.value <= left
    case Read(amount) => e.r == Ok(left[..Min(amount, |left|)])
    case All => e.r == if c.consumed || c.taken == [] then Ok(body) else Err(AlreadyConsumed)
  }

  predicate Expected(body: Bytes, c: Cursor, e: Entry) {
    c.taken <= body && Given(body, body[|c.taken|..], c, e)
  }

  /** The results are those of the calls, one after the other, on a flat body. */
  predicate Follows(body: Bytes, log: seq<Entry>) {
    log == [] || (Follows(body, log[..|log| - 1]) && Expected(body, After(log[..|log| - 1]), log[|log| - 1]))
  }

  lemma LogOn(body: Bytes, log: seq<Entry>, e: Entry)
    ensures After(log + [e]) == Next(After(log), e)
    ensures Follows(body, log + [e]) <==> Follows(body, log) && Expected(body, After(log), e)
  {
    assert (log + [e])[..|log|] == log;
  }

  lemma Unique(body: Bytes, c: Cursor, a: Entry, b: Entry)
    requires Expected(body, c, a) && Expected(body, c, b) && a.call == b.call && !a.call.NextChunk?
    ensures a == b
  {
  }

  /** Programs without chunk reads get the same results, however the body is chunked, prefetched or scheduled. */
  lemma {:induction false} ReadsAgree(body: Bytes, a: seq<Entry>, b: seq<Entry>)
    requires Follows(body, a) && Follows(body, b) && |a| == |b|
    requires forall k | 0 <= k < |a| :: a[k].call == b[k].call && !a[k].call.NextChunk?
    ensures a == b
    decreases |a|
  {
    if a != [] {
      var n := |a| - 1;
      ReadsAgree(body, a[..n], b[..n]);
      Unique(body, After(a[..n]), a[n], b[n]);
    }
  }

  // ----- Whole and partial reads exclude each other -----

  lemma {:induction false} TakenWithin(body: Bytes, log: seq<Entry>)
    requires Follows(body, log)
    ensures After(log).taken <= body
    ensures After(log).consumed ==> After(log).taken == body
    decreases |log|
  {
    if log != [] {
      var n := |log| - 1;
      TakenWithin(body, log[..n]);
      NextWithin(body, After(log[..n]), log[n]);
    }
  }

  lemma NextWithin(body: Bytes, c: Cursor, e: Entry)
    requires Expected(body, c, e) && (c.consumed ==> c.taken == body)
    ensures Next(c, e).taken <= body && (Next(c, e).consumed ==> Next(c, e).taken == body)
  {
    if TakenBy(c.consumed, e) != [] && !e.call.All? {
      assert c.taken + body[|c.taken|..] == body;
    }
  }

  /** A whole-body read that has succeeded gave the body. */
  lemma {:induction false} WholeRead(body: Bytes, log: seq<Entry>, k: nat)
    requires Follows(body, log) && k < |log| && log[k].call.All? && log[k].r.Ok?
    ensures log[k].r == Ok(body) && After(log).consumed
    decreases |log|
  {
    if k < |log| - 1 {
      WholeRead(body, log[..|log| - 1], k);
    }
  }

  /** After it every partial read finds nothing, and every other whole-body read gives the body again. */
  lemma {:induction false} WholeThenNothing(body: Bytes, log: seq<Entry>, k: nat, m: nat)
    requires Follows(body, log) && k < m < |log| && log[k].call.All? && log[k].r.Ok?
    ensures log[k].r == Ok(body) && log[m].r == Ok(if log[m].call.All? then body else [])
    decreases |log|
  {
    var front := log[..|log| - 1];
    WholeRead(body, front, k);
    if m < |log| - 1 {
      WholeThenNothing(body, front, k, m);
    } else {
      TakenWithin(body, front);
    }
  }

  /** A partial read gave bytes. */
  predicate Partial(e: Entry) {
    !e.call.All? && e.r.Ok? && e.r.value != []
  }

  lemma {:induction false} PartialTakes(log: seq<Entry>, k: nat)
    requires k < |log| && Partial(log[k])
    ensures After(log).taken != []
    decreases |log|
  {
    if k < |log| - 1 {
      PartialTakes(log[..|log| - 1], k);
    }
  }

  lemma {:induction false} PartialExcludesWhole(body: Bytes, log: seq<Entry>, k: nat)
    requires Follows(body, log) && k < |log| && Partial(log[k])
    ensures !After(log).consumed
    decreases |log|
  {
    var n := |log| - 1;
    var front := log[..n];
    if k < n {
      PartialExcludesWhole(body, front, k);
      PartialTakes(front, k);
    } else {
      TakenWithin(body, front);
    }
  }

  /** After a partial read that gave bytes every whole-body read is refused. */
  lemma {:induction false} PartialThenRefused(body: Bytes, log: seq<Entry>, k: nat, m: nat)
    requires Follows(body, log) && k < m < |log| && Partial(log[k]) && log[m].call.All?
    ensures log[m].r == Err(AlreadyConsumed)
    decreases |log|
  {
    var front := log[..|log| - 1];
    if m < |log| - 1 {
      PartialThenRefused(body, front, k, m);
    } else {
      PartialTakes(front, k);
      PartialExcludesWhole(body, front, k);
    }
  }

  // ----- On the real reader -----

  /** The cursor of a reader: what it has given, and whether it has cached the whole body. */
  ghost predicate At(reader: BodyReader, body: Bytes, c: Cursor)
    reads reader
  {
    && c.taken <= body && reader.LeftOver() == body[|c.taken|..]
    && reader.readBytes == |c.taken|
    && (reader.fullyConsumedBody.Some? <==> c.consumed)
  }

  lemma Moves(body: Bytes, taken: Bytes, piece: Bytes)
    requires taken <= body && piece <= body[|taken|..]
    ensures taken + piece <= body && body[|taken + piece|..] == body[|taken|..][|piece|..]
  {
    assert body == taken + body[|taken|..];
  }

  /** Everything but a cancellation or a read error: those end a program. */
  predicate GoesOn(r: Result<Bytes, ReadError>) {
    r.Ok? || r.error.AlreadyConsumed?
  }

  function PieceOf(r: Result<Option<Bytes>, ReadError>): Result<Bytes, ReadError> {
    match r
    case Ok(piece) => Ok(if piece.Some? then piece.value else [])
    case Err(e) => Err(e)
  }

  /** A partial read: the next bytes of what is left. */
  method TakePiece(reader: BodyReader, call: Call, cancellable: bool) returns (r: Result<Bytes, ReadError>)
    requires reader.Idle() && !call.All?
    modifies reader.receiver, reader`state, reader`trace, reader`raised, reader`pendingChunks, reader`readBytes
    ensures reader.Idle()
    ensures r.Err? ==> reader.Blamed(r.error, cancellable)
    ensures r.Ok? ==>
              && (reader.raised ==> old(reader.raised))
              && r.value <= old(reader.LeftOver()) && reader.LeftOver() == old(reader.LeftOver())[|r.value|..]
              && reader.readBytes == old(reader.readBytes) + |r.value|
    ensures r.Ok? && call.Read? && reader.Safe() ==>
              r.value == old(reader.LeftOver())[..Min(call.amount, |old(reader.LeftOver())|)]
  {
    if call.NextChunk? {
      var chunk := reader.NextChunk(cancellable);
      r := PieceOf(chunk);
    } else {
      var piece := reader.Read(call.amount, cancellable);
      r := PieceOf(piece);
    }
  }

  method PerformPartial(reader: BodyReader, call: Call, cancellable: bool, ghost body: Bytes, ghost c: Cursor)
    returns (r: Result<Bytes, ReadError>)
    requires reader.Idle() && At(reader, body, c) && !call.All?
    modifies reader.receiver, reader`state, reader`trace, reader`raised, reader`pendingChunks, reader`readBytes
    ensures reader.Idle()
    ensures !GoesOn(r) ==> reader.Blamed(r.error, cancellable)
    ensures GoesOn(r) ==> (reader.raised ==> old(reader.raised)) && At(reader, body, Next(c, Entry(call, r)))
    ensures GoesOn(r) && reader.Safe() ==> Expected(body, c, Entry(call, r))
  {
    r := TakePiece(reader, call, cancellable);
    if r.Ok? { Moves(body, c.taken, r.value); }
  }

  method PerformAll(reader: BodyReader, cancellable: bool, ghost body: Bytes, ghost c: Cursor)
    returns (r: Result<Bytes, ReadError>)
    requires reader.Idle() && At(reader, body, c)
    modifies reader.receiver, reader`state, reader`trace, reader`raised, reader`pendingChunks, reader`readBytes, reader`fullyConsumedBody
    ensures reader.Idle()
    ensures !GoesOn(r) ==> reader.Blamed(r.error, cancellable)
    ensures GoesOn(r) ==> (reader.raised ==> old(reader.raised)) && At(reader, body, Next(c, Entry(All, r)))
    ensures GoesOn(r) && reader.Safe() && body == P.Content(reader.whole.frames) ==> Expected(body, c, Entry(All, r))
  {
    r := reader.ReadAll(cancellable);
  }

  /** The next call of a program. */
  method Perform(reader: BodyReader, call: Call, cancellable: bool, ghost body: Bytes, ghost log: seq<Entry>)
    returns (r: Result<Bytes, ReadError>)
    requires reader.Idle() && At(reader, body, After(log))
    modifies reader.receiver, reader`state, reader`trace, reader`raised, reader`pendingChunks, reader`readBytes, reader`fullyConsumedBody
    ensures reader.Idle()
    ensures !GoesOn(r) ==> reader.Blamed(r.error, cancellable)
    ensures GoesOn(r) ==>
              && (reader.raised ==> old(reader.raised))
              && At(reader, body, After(log + [Entry(call, r)]))
              && (reader.Safe() && body == P.Content(reader.whole.frames) && Follows(body, log) ==>
                    Follows(body, log + [Entry(call, r)]))
  {
    if call.All? {
      r := PerformAll(reader, cancellable, body, After(log));
    } else {
      r := PerformPartial(reader, call, cancellable, body, After(log));
    }
    LogOn(body, log, Entry(call, r));
  }

  /**
   * Any program on a fresh reader. Each call takes the next bytes of the body; for a reader that is safe the results
   * are exactly those on a flat body; and only a cancellation or a read error ends the program early.
   */
  method RunCalls(reader: BodyReader, calls: seq<Call>, cancellable: bool)
    returns (log: seq<Entry>, error: Option<ReadError>)
    requires reader.Idle() && reader.readBytes == 0 && reader.fullyConsumedBody.None?
    modifies reader.receiver, reader`state, reader`trace, reader`raised, reader`pendingChunks, reader`readBytes, reader`fullyConsumedBody
    ensures reader.Idle() && |log| <= |calls| && forall k | 0 <= k < |log| :: log[k].call == calls[k]
    ensures After(log).taken <= old(reader.LeftOver())
    ensures error.Some? ==> reader.Blamed(error.value, cancellable)
    ensures error.None? ==> |log| == |calls|
    ensures error.None? && old(reader.Safe()) ==> Follows(P.Content(reader.whole.frames), log)
  {
    log := [];
    error := None;
    ghost var body, safe := reader.LeftOver(), reader.Safe();
    FreshLeft(reader);
    for k := 0 to |calls|
      invariant reader.Idle() && At(reader, body, After(log))
      invariant |log| == k && forall j | 0 <= j < k :: log[j].call == calls[j]
      invariant safe ==> reader.Safe() && Follows(body, log)
    {
      var r := Perform(reader, calls[k], cancellable, body, log);
      if !GoesOn(r) {
        return log, Some(r.error);
      }
      log := log + [Entry(calls[k], r)];
    }
  }

  /** A safe reader that has given nothing has the whole body left. */
  lemma FreshLeft(reader: BodyReader)
    requires reader.Idle() && reader.readBytes == 0
    ensures reader.Safe() ==> reader.LeftOver() == P.Content(reader.whole.frames)
  {
    P.NothingLost(reader.state.history);
  }

  /** From the response to the results. Nothing can go wrong but the connection, the runtime, or a cancellation. */
  method Session(source: P.Source, config: P.ReadConfig, mayStop: bool, cancellable: bool, calls: seq<Call>)
    returns (log: seq<Entry>, error: Option<ReadError>)
    requires !config.NoBody?
    ensures |log| <= |calls| && (forall k | 0 <= k < |log| :: log[k].call == calls[k])
    ensures After(log).taken <= P.Content(source.frames)
    ensures match error
            case None => |log| == |calls| && (!mayStop ==> Follows(P.Content(source.frames), log))
            case Some(e) => (e.Cancelled? && cancellable) || (e.ReadFailed? && source.fails)
  {
    log := [];
    var opening := BodyReader.Initialize(source, config, mayStop);
    if opening.Err? {
      return [], Some(opening.error);
    }
    log, error := RunCalls(opening.value, calls, cancellable);
  }
}
