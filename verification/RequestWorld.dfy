/**
 * Requests as values: what a program can do with a request and the copies of it, and what goes on the wire.
 *
 * A request refers to its body by a cell, because several requests may share one body handle. Headers are never
 * shared: setting them copies. Middlewares may do with every request what any program may.
 */
module RequestWorld {
  import opened Wrappers
  import opened Chunks
  import opened Headers
  import opened Middleware
  import BodyStream

  datatype InnerBody = BytesBody(bytes: Bytes) | StreamBody(items: seq<BodyStream.Item>, isAsync: bool, taskLocal: bool)

  /** What a body will send; the remembered event loop is not part of it. */
  function Payload(b: InnerBody): InnerBody {
    if b.StreamBody? then b.(taskLocal := false) else b
  }

  function PayloadOpt(b: Option<InnerBody>): Option<InnerBody> {
    if b.Some? then Some(Payload(b.value)) else None
  }

  /** What is sent of a body: the same bytes, or a stream of the same items. */
  predicate Carries(body: Option<InnerBody>, sent: Option<InnerBody>) {
    match body
    case None => sent.None?
    case Some(BytesBody(bytes)) => sent == Some(BytesBody(bytes))
    case Some(StreamBody(items, isAsync, _)) =>
      sent.Some? && sent.value.StreamBody? && sent.value.items == items && sent.value.isAsync == isAsync
  }

  predicate IsAsync(b: InnerBody) {
    b.StreamBody? && b.isAsync
  }

  predicate NeedsLoop(b: InnerBody) {
    IsAsync(b) && !b.taskLocal
  }

  /** Looks up the event loop that the body of a request needs, if there is one to find. */
  function Remember(cell: Option<InnerBody>, hasLoop: bool): Option<InnerBody> {
    if cell.Some? && NeedsLoop(cell.value) && hasLoop then Some(cell.value.(taskLocal := true)) else cell
  }

  /** A body is there, and has an event loop if it needs one. */
  predicate HasBody(cell: Option<InnerBody>, hasLoop: bool) {
    cell.Some? && (NeedsLoop(cell.value) ==> hasLoop)
  }

  /** What a handle holds after an attempt to send its body. */
  function AfterSend(cell: Option<InnerBody>, hasLoop: bool): Option<InnerBody> {
    if HasBody(cell, hasLoop) then None else cell
  }

  /** The request as the HTTP client keeps it; a form or multipart body is part of it from the start. */
  datatype Base = Base(verb: string, url: string, headers: Entries, body: Option<InnerBody>)

  /** A request on the wire. */
  datatype Wire = Wire(verb: string, url: string, headers: Entries, body: Option<InnerBody>)

  datatype Chain = Chain(list: seq<MiddlewareId>, current: nat)

  /** A request that was not sent yet. Its headers are gone only if someone took them. */
  datatype Live = Live(base: Base, headers: Option<Entries>, body: Option<nat>, chain: Option<Chain>)

  /** `copies` counts the copies that succeeded; `wires` says which request each wire request came from. */
  datatype World = World(
    requests: seq<Option<Live>>,
    cells: seq<Option<InnerBody>>,
    copies: nat,
    wires: seq<(nat, Wire)>)

  datatype Op =
    | ReadHeaders(i: nat)
    | EditHeaders(i: nat, entries: Entries)
    | WriteHeaders(i: nat, entries: Entries)
    | ReadBody(i: nat)
    | WriteBody(i: nat, body: Option<InnerBody>)
    | ShareBody(i: nat, j: nat)
    | CopyRequest(i: nat)
    | Send(i: nat, isBlocking: bool, hasLoop: bool, b: Behaviour<Op>)

  predicate IsLive(w: World, i: nat) {
    i < |w.requests| && w.requests[i].Some?
  }

  function Cell(w: World, c: Option<nat>): Option<InnerBody> {
    if c.Some? && c.value < |w.cells| then w.cells[c.value] else None
  }

  function SetCell(w: World, c: Option<nat>, cell: Option<InnerBody>): World {
    if c.Some? && c.value < |w.cells| then w.(cells := w.cells[c.value := cell]) else w
  }

  function Put(w: World, i: nat, live: Option<Live>): World {
    if i < |w.requests| then w.(requests := w.requests[i := live]) else w
  }

  // ----- Sending -----

  /** The body can be sent from where the call is made. */
  predicate Sendable(w: World, live: Live, isBlocking: bool, hasLoop: bool) {
    live.body.Some? ==>
      HasBody(Cell(w, live.body), hasLoop) && !(isBlocking && IsAsync(Cell(w, live.body).value))
  }

  /** The request can go on the wire. */
  predicate Ready(w: World, i: nat, isBlocking: bool, hasLoop: bool) {
    IsLive(w, i) && w.requests[i].value.headers.Some? && Sendable(w, w.requests[i].value, isBlocking, hasLoop)
  }

  /** What the request stands for. */
  function WireOf(w: World, i: nat): Wire
    requires IsLive(w, i) && w.requests[i].value.headers.Some?
  {
    var live := w.requests[i].value;
    Wire(live.base.verb, live.base.url, live.headers.value,
         PayloadOpt(if live.body.Some? then Cell(w, live.body) else live.base.body))
  }

  /** The end of a chain: the request is taken apart, and goes on the wire if it is ready. */
  function SendWire(w: World, i: nat, isBlocking: bool, hasLoop: bool): World {
    if !IsLive(w, i) then w
    else
      var live := w.requests[i].value;
      var taken := SetCell(Put(w, i, None), live.body, AfterSend(Cell(w, live.body), hasLoop));
      if Ready(w, i, isBlocking, hasLoop) then taken.(wires := w.wires + [(i, WireOf(w, i))]) else taken
  }

  function CopyOf(w: World, i: nat): World {
    if IsLive(w, i) && Copyable(w, w.requests[i].value) then
      var live := w.requests[i].value;
      var copy := live.(body := if live.body.Some? then Some(|w.cells|) else None);
      w.(requests := w.requests + [Some(copy)],
         cells := if live.body.Some? then w.cells + [PayloadOpt(Cell(w, live.body))] else w.cells,
         copies := w.copies + 1)
    else w
  }

  predicate Copyable(w: World, live: Live) {
    && live.headers.Some?
    && (live.body.Some? ==> Cell(w, live.body).Some?)
    && (live.base.body.Some? ==> live.base.body.value.BytesBody?)
  }

  /** The first part of a send: the event loop is looked up, and the chain leaves the request. */
  predicate CanBegin(w: World, i: nat, isBlocking: bool, hasLoop: bool) {
    && IsLive(w, i)
    && (w.requests[i].value.body.Some? ==> HasBody(Cell(w, w.requests[i].value.body), hasLoop))
  }

  function Begin(w: World, i: nat, hasLoop: bool): World
    requires IsLive(w, i)
  {
    var live := w.requests[i].value;
    Put(SetCell(w, live.body, Remember(Cell(w, live.body), hasLoop)), i, Some(live.(chain := None)))
  }

  // ----- How deep sends nest inside middlewares -----

  function Depth(op: Op): nat
    decreases op
  {
    if op.Send? then 1 + ActsDepth(op.b.acts) else 0
  }

  function ActDepth(act: Act<Op>): nat
    decreases act
  {
    match act
    case Do(op) => Depth(op)
    case RunNext(_, rest) => ActsDepth(rest.acts)
  }

  function ActsDepth(acts: seq<Act<Op>>): nat
    decreases acts
  {
    if acts == [] then 0 else Max(ActsDepth(acts[..|acts| - 1]), ActDepth(acts[|acts| - 1]))
  }

  /** No send among the events nests deeper than this. */
  ghost predicate Within(events: seq<Event<Op>>, depth: nat) {
    forall e <- events :: e.Acted? ==> Depth(e.action) <= depth
  }

  lemma {:induction false} TraceWithin(chain: seq<MiddlewareId>, current: nat, target: nat, b: Behaviour<Op>)
    requires current <= |chain|
    ensures Within(RunTrace(chain, current, target, b), ActsDepth(b.acts))
    decreases |chain| - current, 0
  {
    if current < |chain| {
      ActsWithin(chain, current + 1, b.acts);
    }
  }

  lemma {:induction false} ActsWithin(chain: seq<MiddlewareId>, current: nat, acts: seq<Act<Op>>)
    requires current <= |chain|
    ensures Within(RunActs(chain, current, acts), ActsDepth(acts))
    decreases |chain| - current, 1 + |acts|
  {
    if acts != [] {
      ActsWithin(chain, current, acts[..|acts| - 1]);
      match acts[|acts| - 1]
      case Do(_) =>
      case RunNext(target, rest) => TraceWithin(chain, current, target, rest);
    }
  }

  /** The events of a chain that starts where the request's own chain stands. */
  function ChainTrace(chain: Chain, i: nat, b: Behaviour<Op>): (events: seq<Event<Op>>)
    ensures Within(events, ActsDepth(b.acts))
  {
    var current := Min(chain.current, |chain.list|);
    TraceWithin(chain.list, current, i, b);
    RunTrace(chain.list, current, i, b)
  }

  // ----- Histories -----

  /** The effect of one operation. Getters change nothing, wherever they move headers and bodies. */
  function Apply(w: World, op: Op): World
    decreases Depth(op), 0
  {
    match op
    case ReadHeaders(_) => w
    case ReadBody(_) => w
    case EditHeaders(i, entries) =>
      if IsLive(w, i) && w.requests[i].value.headers.Some?
      then Put(w, i, Some(w.requests[i].value.(headers := Some(entries)))) else w
    case WriteHeaders(i, entries) =>
      if IsLive(w, i) then Put(w, i, Some(w.requests[i].value.(headers := Some(entries)))) else w
    case WriteBody(i, body) =>
      if !IsLive(w, i) then w
      else if body.None? then Put(w, i, Some(w.requests[i].value.(body := None)))
      else Put(w, i, Some(w.requests[i].value.(body := Some(|w.cells|)))).(cells := w.cells + [body])
    case ShareBody(i, j) =>
      if IsLive(w, i) && IsLive(w, j)
      then Put(w, i, Some(w.requests[i].value.(body := w.requests[j].value.body))) else w
    case CopyRequest(i) => CopyOf(w, i)
    case Send(i, isBlocking, hasLoop, b) =>
      if !CanBegin(w, i, isBlocking, hasLoop) then w
      else
        var begun := Begin(w, i, hasLoop);
        match w.requests[i].value.chain
        case None => SendWire(begun, i, isBlocking, hasLoop)
        case Some(chain) =>
          // An async chain needs the event loop that its middlewares run on
          if !isBlocking && !hasLoop then begun
          else ApplyEvents(begun, ChainTrace(chain, i, b), isBlocking, hasLoop, ActsDepth(b.acts))
  }

  function ApplyEvent(w: World, e: Event<Op>, isBlocking: bool, hasLoop: bool, depth: nat): World
    requires e.Acted? ==> Depth(e.action) <= depth
    decreases depth, 1
  {
    match e
    case Acted(op) => Apply(w, op)
    case WireSend(j) => SendWire(w, j, isBlocking, hasLoop)
    case _ => w
  }

  function ApplyEvents(w: World, events: seq<Event<Op>>, isBlocking: bool, hasLoop: bool, depth: nat): World
    requires Within(events, depth)
    decreases depth, 2 + |events|
  {
    if events == [] then w
    else
      var n := |events| - 1;
      ApplyEvent(ApplyEvents(w, events[..n], isBlocking, hasLoop, depth), events[n], isBlocking, hasLoop, depth)
  }

  function Replay(w: World, ops: seq<Op>): World {
    if ops == [] then w else Apply(Replay(w, ops[..|ops| - 1]), ops[|ops| - 1])
  }

  // ----- Linearity -----

  /** Every wire request came from a request of its own, which is gone since. */
  predicate Linear(w: World) {
    && (forall k | 0 <= k < |w.wires| :: w.wires[k].0 < |w.requests| && w.requests[w.wires[k].0].None?)
    && (forall k, m | 0 <= k < m < |w.wires| :: w.wires[k].0 != w.wires[m].0)
  }

  /** What every operation keeps: wire requests stay as they are, and what was sent stays gone, bodies included. */
  predicate Later(w: World, t: World) {
    && w.wires <= t.wires
    && |w.requests| <= |t.requests| && |t.requests| - |w.requests| == t.copies - w.copies
    && (forall i | 0 <= i < |w.requests| && w.requests[i].None? :: t.requests[i].None?)
    && |w.cells| <= |t.cells|
    && (forall c | 0 <= c < |w.cells| && w.cells[c].None? :: t.cells[c].None?)
  }

  lemma SendWireKeeps(w: World, i: nat, isBlocking: bool, hasLoop: bool)
    requires Linear(w)
    ensures Linear(SendWire(w, i, isBlocking, hasLoop)) && Later(w, SendWire(w, i, isBlocking, hasLoop))
  {
  }

  lemma PutKeeps(w: World, i: nat, live: Live)
    requires Linear(w) && IsLive(w, i)
    ensures Linear(Put(w, i, Some(live))) && Later(w, Put(w, i, Some(live)))
  {
  }

  lemma CopyKeeps(w: World, i: nat)
    requires Linear(w)
    ensures Linear(CopyOf(w, i)) && Later(w, CopyOf(w, i))
  {
  }

  lemma BeginKeeps(w: World, i: nat, hasLoop: bool)
    requires Linear(w) && IsLive(w, i)
    ensures Linear(Begin(w, i, hasLoop)) && Later(w, Begin(w, i, hasLoop))
  {
  }

  lemma OtherKeeps(w: World, op: Op)
    requires Linear(w) && !op.Send?
    ensures Linear(Apply(w, op)) && Later(w, Apply(w, op))
  {
    if IsLive(w, op.i) {
      var live := w.requests[op.i].value;
      match op
      case EditHeaders(i, entries) => PutKeeps(w, i, live.(headers := Some(entries)));
      case WriteHeaders(i, entries) => PutKeeps(w, i, live.(headers := Some(entries)));
      case WriteBody(i, body) => PutKeeps(w, i, live.(body := if body.Some? then Some(|w.cells|) else None));
      case ShareBody(i, j) => if IsLive(w, j) { PutKeeps(w, i, live.(body := w.requests[j].value.body)); }
      case CopyRequest(i) => CopyKeeps(w, i);
      case _ =>
    }
  }

  lemma {:induction false} ApplyKeeps(w: World, op: Op)
    requires Linear(w)
    ensures Linear(Apply(w, op)) && Later(w, Apply(w, op))
    decreases Depth(op), 0
  {
    if !op.Send? {
      OtherKeeps(w, op);
    } else if CanBegin(w, op.i, op.isBlocking, op.hasLoop) {
      var begun := Begin(w, op.i, op.hasLoop);
      BeginKeeps(w, op.i, op.hasLoop);
      match w.requests[op.i].value.chain
      case None => SendWireKeeps(begun, op.i, op.isBlocking, op.hasLoop);
      case Some(chain) =>
        EventsKeep(begun, ChainTrace(chain, op.i, op.b), op.isBlocking, op.hasLoop, ActsDepth(op.b.acts));
    }
  }

  lemma {:induction false} EventsKeep(w: World, events: seq<Event<Op>>, isBlocking: bool, hasLoop: bool, depth: nat)
    requires Linear(w) && Within(events, depth)
    ensures Linear(ApplyEvents(w, events, isBlocking, hasLoop, depth))
    ensures Later(w, ApplyEvents(w, events, isBlocking, hasLoop, depth))
    decreases depth, 2 + |events|
  {
    if events != [] {
      var n := |events| - 1;
      EventsKeep(w, events[..n], isBlocking, hasLoop, depth);
      var u := ApplyEvents(w, events[..n], isBlocking, hasLoop, depth);
      match events[n]
      case Acted(op) => ApplyKeeps(u, op);
      case WireSend(j) => SendWireKeeps(u, j, isBlocking, hasLoop);
      case _ =>
    }
  }

  /** The world of one request that was not sent. */
  predicate IsStart(w: World) {
    |w.requests| == 1 && w.copies == 0 && w.wires == []
  }

  /**
   * In any history of gets, sets, edits, shared bodies, copies and sends, middlewares included, every request
   * goes on the wire at most once, and all together at most once more than there were copies.
   */
  lemma {:induction false} HistoryIsLinear(start: World, ops: seq<Op>)
    requires IsStart(start)
    ensures var t := Replay(start, ops);
            && Linear(t) && |t.requests| == 1 + t.copies
            && |t.wires| <= 1 + t.copies
  {
    if ops != [] {
      HistoryIsLinear(start, ops[..|ops| - 1]);
      ApplyKeeps(Replay(start, ops[..|ops| - 1]), ops[|ops| - 1]);
    }
    DistinctBound(Replay(start, ops));
  }

  function Sources(wires: seq<(nat, Wire)>): set<nat> {
    if wires == [] then {} else Sources(wires[..|wires| - 1]) + {wires[|wires| - 1].0}
  }

  lemma {:induction false} CountSources(wires: seq<(nat, Wire)>)
    requires forall k, m | 0 <= k < m < |wires| :: wires[k].0 != wires[m].0
    ensures |Sources(wires)| == |wires|
    ensures forall x <- Sources(wires) :: exists k | 0 <= k < |wires| :: wires[k].0 == x
  {
    if wires != [] {
      CountSources(wires[..|wires| - 1]);
    }
  }

  lemma DistinctBound(w: World)
    requires Linear(w)
    ensures |w.wires| <= |w.requests|
  {
    CountSources(w.wires);
    UpTo(Sources(w.wires), |w.requests|);
  }

  lemma {:induction false} UpTo(s: set<nat>, n: nat)
    requires forall x <- s :: x < n
    ensures |s| <= n
  {
    if n > 0 {
      UpTo(s - {n - 1}, n - 1);
    } else {
      assert s == {};
    }
  }

  // ----- What goes on the wire -----

  lemma {:induction false} EventsConcat(w: World, a: seq<Event<Op>>, b: seq<Event<Op>>, isBlocking: bool, hasLoop: bool, depth: nat)
    requires Within(a + b, depth)
    ensures Within(a, depth) && Within(b, depth)
    ensures ApplyEvents(w, a + b, isBlocking, hasLoop, depth)
         == ApplyEvents(ApplyEvents(w, a, isBlocking, hasLoop, depth), b, isBlocking, hasLoop, depth)
  {
    assert Within(a, depth) by { assert forall e <- a :: e in a + b; }
    assert Within(b, depth) by { assert forall e <- b :: e in a + b; }
    if b == [] {
      assert a + b == a;
    } else {
      var c := b[..|b| - 1];
      assert Within(a + c, depth) by { assert forall e <- a + c :: e in a + b; }
      EventsConcat(w, a, c, isBlocking, hasLoop, depth);
      assert (a + b)[..|a + b| - 1] == a + c;
    }
  }

  /**
   * Whatever the middlewares edit, copy, send or run: when a chain comes to its end with a request that is ready,
   * that request goes on the wire as it is at that moment, and it never does again.
   */
  lemma FirstWireSend(w: World, before: seq<Event<Op>>, after: seq<Event<Op>>, i: nat,
                      isBlocking: bool, hasLoop: bool, depth: nat)
    requires Linear(w) && Within(before + [WireSend(i)] + after, depth)
    requires Within(before, depth) && Ready(ApplyEvents(w, before, isBlocking, hasLoop, depth), i, isBlocking, hasLoop)
    ensures var u := ApplyEvents(w, before, isBlocking, hasLoop, depth);
            var t := ApplyEvents(w, before + [WireSend(i)] + after, isBlocking, hasLoop, depth);
            && u.wires + [(i, WireOf(u, i))] <= t.wires
            && (forall k | 0 <= k < |t.wires| :: t.wires[k].0 == i ==> k == |u.wires|)
  {
    var u := ApplyEvents(w, before, isBlocking, hasLoop, depth);
    EventsConcat(w, before + [WireSend(i)], after, isBlocking, hasLoop, depth);
    assert (before + [WireSend(i)])[..|before|] == before;
    EventsKeep(w, before, isBlocking, hasLoop, depth);
    var v := SendWire(u, i, isBlocking, hasLoop);
    assert v == ApplyEvents(w, before + [WireSend(i)], isBlocking, hasLoop, depth);
    SendWireKeeps(u, i, isBlocking, hasLoop);
    EventsKeep(v, after, isBlocking, hasLoop, depth);
    var t := ApplyEvents(v, after, isBlocking, hasLoop, depth);
    assert t.wires[|u.wires|] == (i, WireOf(u, i));
  }

  lemma SentOnce(w: World, i: nat, isBlocking: bool, hasLoop: bool)
    ensures SendWire(SendWire(w, i, isBlocking, hasLoop), i, isBlocking, hasLoop) == SendWire(w, i, isBlocking, hasLoop)
  {
  }

  /** The events only pass one request along. */
  predicate OnlyPasses(events: seq<Event<Op>>, i: nat) {
    forall e <- events :: !e.Acted? && (e.WireSend? ==> e.target == i)
  }

  /** Middlewares that only pass the request along: it goes on the wire exactly if one run reaches the end. */
  lemma {:induction false} PassedAlong(w: World, events: seq<Event<Op>>, i: nat, isBlocking: bool, hasLoop: bool, depth: nat)
    requires OnlyPasses(events, i) && Within(events, depth) && Ready(w, i, isBlocking, hasLoop)
    ensures ApplyEvents(w, events, isBlocking, hasLoop, depth)
         == if WireSend(i) in events then SendWire(w, i, isBlocking, hasLoop) else w
  {
    if events != [] {
      var n := |events| - 1;
      var front, last := events[..n], events[n];
      assert events == front + [last];
      assert forall e <- front :: e in events;
      PassedAlong(w, front, i, isBlocking, hasLoop, depth);
      assert last in events;
      if last.WireSend? {
        assert last == WireSend(i);
        SentOnce(w, i, isBlocking, hasLoop);
      } else {
        assert WireSend(i) in events <==> WireSend(i) in front;
      }
    }
  }

  /** The chain that a send runs: from where the request's own chain stands, or straight to the wire. */
  function SendTrace(w: World, i: nat, b: Behaviour<Op>): seq<Event<Op>>
    requires IsLive(w, i)
  {
    if w.requests[i].value.chain.None? then [WireSend(i)] else ChainTrace(w.requests[i].value.chain.value, i, b)
  }

  lemma BeginKeepsReady(w: World, i: nat, isBlocking: bool, hasLoop: bool)
    requires Ready(w, i, isBlocking, hasLoop)
    ensures CanBegin(w, i, isBlocking, hasLoop)
    ensures var begun := Begin(w, i, hasLoop);
            && Ready(begun, i, isBlocking, hasLoop) && WireOf(begun, i) == WireOf(w, i) && begun.wires == w.wires
  {
  }

  /** A ready request goes out, as it is, exactly if its chain comes to the end. */
  lemma ReadyRequestIsSent(w: World, i: nat, isBlocking: bool, hasLoop: bool, b: Behaviour<Op>)
    requires Ready(w, i, isBlocking, hasLoop) && OnlyPasses(SendTrace(w, i, b), i)
    requires w.requests[i].value.chain.Some? ==> isBlocking || hasLoop
    ensures Apply(w, Send(i, isBlocking, hasLoop, b)).wires
         == w.wires + (if WireSend(i) in SendTrace(w, i, b) then [(i, WireOf(w, i))] else [])
  {
    BeginKeepsReady(w, i, isBlocking, hasLoop);
    var begun := Begin(w, i, hasLoop);
    if w.requests[i].value.chain.Some? {
      PassedAlong(begun, SendTrace(w, i, b), i, isBlocking, hasLoop, ActsDepth(b.acts));
    }
  }

  /** A body that was sent is spent for every request that shares it, for ever. */
  lemma SharedBodyIsSpent(w: World, i: nat, t: World, j: nat, isBlocking: bool, hasLoop: bool)
    requires Ready(w, i, isBlocking, hasLoop) && w.requests[i].value.body.Some?
    requires Later(SendWire(w, i, isBlocking, hasLoop), t)
    requires IsLive(t, j) && t.requests[j].value.body == w.requests[i].value.body
    ensures !Ready(t, j, isBlocking, hasLoop)
  {
  }

  // ----- What operations do to the request that will be sent -----

  /** The parts of a wire request: verb and address, the headers, and the body of the cell or of the base. */
  lemma WireCarries(w: World, i: nat)
    requires IsLive(w, i) && w.requests[i].value.headers.Some?
    ensures var live := w.requests[i].value;
            var wire := WireOf(w, i);
            && wire.verb == live.base.verb && wire.url == live.base.url && wire.headers == live.headers.value
            && Carries(if live.body.Some? then Cell(w, live.body) else live.base.body, wire.body)
  {
  }

  /** Getters change nothing, and new or edited headers are the request's headers. */
  lemma HeaderOperations(w: World, i: nat, entries: Entries)
    requires IsLive(w, i)
    ensures Apply(w, ReadHeaders(i)) == w && Apply(w, ReadBody(i)) == w
    ensures var t := Apply(w, WriteHeaders(i, entries));
            t == w.(requests := w.requests[i := Some(w.requests[i].value.(headers := Some(entries)))])
    ensures w.requests[i].value.headers.Some? ==>
              var t := Apply(w, EditHeaders(i, entries));
              t == Apply(w, WriteHeaders(i, entries)) && WireOf(t, i) == WireOf(w, i).(headers := entries)
  {
  }

  /** A new body is the request's body, in a cell of its own; without one the request has the body it began with. */
  lemma NewBody(w: World, i: nat, body: InnerBody)
    requires IsLive(w, i)
    ensures var t := Apply(w, WriteBody(i, Some(body)));
            && t.cells == w.cells + [Some(body)]
            && t.requests == w.requests[i := Some(w.requests[i].value.(body := Some(|w.cells|)))]
            && (w.requests[i].value.headers.Some? ==> Carries(Some(body), WireOf(t, i).body))
    ensures var t := Apply(w, WriteBody(i, None));
            && t.cells == w.cells && t.requests == w.requests[i := Some(w.requests[i].value.(body := None))]
            && (w.requests[i].value.headers.Some? ==> Carries(w.requests[i].value.base.body, WireOf(t, i).body))
  {
  }

  /** A shared body is the other request's body: both refer to one cell. */
  lemma SharedBody(w: World, i: nat, j: nat)
    requires IsLive(w, i) && IsLive(w, j)
    ensures var t := Apply(w, ShareBody(i, j));
            && t.cells == w.cells
            && t.requests == w.requests[i := Some(w.requests[i].value.(body := w.requests[j].value.body))]
            && (w.requests[i].value.headers.Some? && w.requests[j].value.body.Some? ==>
                  Carries(Cell(w, w.requests[j].value.body), WireOf(t, i).body))
  {
  }

  /** A copy goes on the wire like the request that it was copied from. */
  lemma CopyOperation(w: World, i: nat)
    requires IsLive(w, i) && Copyable(w, w.requests[i].value)
    requires w.requests[i].value.body.Some? ==> w.requests[i].value.body.value < |w.cells|
    ensures var t := Apply(w, CopyRequest(i));
            var n := |w.requests|;
            && |t.requests| == n + 1 && t.requests[..n] == w.requests && IsLive(t, n) && t.requests[n].value.headers.Some?
            && WireOf(t, n) == WireOf(w, i) && t.requests[n].value.chain == w.requests[i].value.chain
            && (w.requests[i].value.body.Some? ==> t.requests[n].value.body == Some(|w.cells|))
  {
  }

  /** What a program has edited is what it sends: the new headers go out with the rest of the request. */
  lemma EditedHeadersAreSent(w: World, i: nat, entries: Entries, isBlocking: bool, hasLoop: bool, b: Behaviour<Op>)
    requires Ready(w, i, isBlocking, hasLoop)
    requires w.requests[i].value.chain.Some? ==> isBlocking || hasLoop
    requires OnlyPasses(SendTrace(w, i, b), i) && WireSend(i) in SendTrace(w, i, b)
    ensures Replay(w, [EditHeaders(i, entries), Send(i, isBlocking, hasLoop, b)]).wires
         == w.wires + [(i, WireOf(w, i).(headers := entries))]
  {
    var t := Apply(w, EditHeaders(i, entries));
    HeaderOperations(w, i, entries);
    ReadyRequestIsSent(t, i, isBlocking, hasLoop, b);
    var ops := [EditHeaders(i, entries), Send(i, isBlocking, hasLoop, b)];
    assert ops[..1] == [ops[0]] && ops[..1][..0] == [];
    assert Replay(w, ops[..1]) == t;
  }

  /** The bytes of a body go on the wire as they are. */
  lemma BytesAreSent(w: World, i: nat, bytes: Bytes, isBlocking: bool, hasLoop: bool, b: Behaviour<Op>)
    requires Ready(w, i, isBlocking, hasLoop)
    requires w.requests[i].value.chain.Some? ==> isBlocking || hasLoop
    requires OnlyPasses(SendTrace(w, i, b), i) && WireSend(i) in SendTrace(w, i, b)
    requires var live := w.requests[i].value;
             (if live.body.Some? then Cell(w, live.body) else live.base.body) == Some(BytesBody(bytes))
    ensures var live := w.requests[i].value;
            Apply(w, Send(i, isBlocking, hasLoop, b)).wires
            == w.wires + [(i, Wire(live.base.verb, live.base.url, live.headers.value, Some(BytesBody(bytes))))]
  {
    ReadyRequestIsSent(w, i, isBlocking, hasLoop, b);
    WireCarries(w, i);
  }
}
