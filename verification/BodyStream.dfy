/** A Python iterator, sync or async, as a stream that is polled. */
module BodyStream {
  import opened Wrappers
  import opened Chunks

  /** What one step of the iterator gives: bytes, a value that is not bytes-like, or a raised exception. */
  datatype Item = Value(bytes: Bytes) | NotBytes | Raised

  datatype StreamError = TypeMismatch | IteratorRaised | NoEventLoop

  /** What `poll_next` returns; `Ready(None)` ends the stream. */
  datatype Poll = Pending | Ready(item: Option<Result<Bytes, StreamError>>)

  datatype Waiter = Async | Sync(value: Option<Result<Bytes, StreamError>>)

  /**
   * `items` are the steps that the iterator still has to give. An async step is taken when its waiter
   * completes. `started` counts the steps asked for.
   */
  datatype State = State(
    items: seq<Item>,
    curWaiter: Option<Waiter>,
    isAsync: bool,
    taskLocal: bool,
    started: nat)

  function Extract(item: Item): Result<Bytes, StreamError> {
    match item
    case Value(bytes) => Ok(bytes)
    case NotBytes => Err(TypeMismatch)
    case Raised => Err(IteratorRaised)
  }

  /** The next step of an iterator, or the sentinel once it is exhausted. */
  function Front(items: seq<Item>): Option<Result<Bytes, StreamError>> {
    if items == [] then None else Some(Extract(items[0]))
  }

  function Rest(items: seq<Item>): seq<Item> {
    if items == [] then [] else items[1..]
  }

  /** Outside influences on one poll: is there a running event loop, and is the async waiter done. */
  datatype Turn = Turn(hasLoop: bool, done: bool)

  function StartNext(s: State): State {
    if s.isAsync then s.(curWaiter := Some(Async), started := s.started + 1)
    else s.(curWaiter := Some(Sync(Front(s.items))), items := Rest(s.items), started := s.started + 1)
  }

  function PollWaiter(s: State, done: bool): (State, Poll)
    requires s.curWaiter.Some?
  {
    match s.curWaiter.value
    case Sync(value) => (s.(curWaiter := None), Ready(value))
    case Async =>
      if done then (s.(curWaiter := None, items := Rest(s.items)), Ready(Front(s.items))) else (s, Pending)
  }

  function PollNext(s: State, turn: Turn): (State, Poll) {
    if s.curWaiter.Some? then PollWaiter(s, turn.done)
    else if s.isAsync && !s.taskLocal && !turn.hasLoop then (s, Ready(Some(Err(NoEventLoop))))
    else PollWaiter(StartNext(s), turn.done)
  }

  predicate SyncOutstanding(s: State) {
    s.curWaiter.Some? && s.curWaiter.value.Sync?
  }

  class BodyStream {
    var items: seq<Item>
    var curWaiter: Option<Waiter>
    const isAsync: bool
    var taskLocal: bool
    ghost var started: nat

    ghost function Abs(): State
      reads this
    {
      State(items, curWaiter, isAsync, taskLocal, started)
    }

    constructor (items: seq<Item>, isAsync: bool)
      ensures Abs() == State(items, None, isAsync, false, 0)
    {
      this.items := items;
      this.curWaiter := None;
      this.isAsync := isAsync;
      this.taskLocal := false;
      this.started := 0;
    }

    /** Remembers the event loop of the caller; a sync stream needs none, and the first one stays. */
    method SetTaskLocal()
      modifies this
      ensures Abs() == old(Abs()).(taskLocal := old(taskLocal) || isAsync)
    {
      if isAsync && !taskLocal {
        taskLocal := true;
      }
    }

    method NextItem() returns (value: Option<Result<Bytes, StreamError>>)
      modifies this`items
      ensures value == Front(old(items)) && items == Rest(old(items))
    {
      value := None;
      if |items| > 0 {
        value := Some(Extract(items[0]));
        items := items[1..];
      }
    }

    /** Asks the iterator for its next step. */
    method PyNext(hasLoop: bool) returns (waiter: Option<Waiter>)
      requires curWaiter.None?
      modifies this
      ensures curWaiter.None? && taskLocal == old(taskLocal)
      ensures waiter.None? <==> isAsync && !taskLocal && !hasLoop
      ensures waiter.None? ==> Abs() == old(Abs())
      ensures waiter.Some? ==> Abs().(curWaiter := waiter) == StartNext(old(Abs()))
    {
      if isAsync {
        if !taskLocal && !hasLoop {
          return None;
        }
        started := started + 1;
        waiter := Some(Async);
      } else {
        var value := NextItem();
        started := started + 1;
        waiter := Some(Sync(value));
      }
    }

    method PollOnce(turn: Turn) returns (poll: Poll)
      modifies this
      ensures (Abs(), poll) == PollNext(old(Abs()), turn)
      // Between two polls only an async step can be outstanding
      ensures !SyncOutstanding(old(Abs())) ==>
                && (poll.Pending? ==> (isAsync || old(curWaiter).Some?) && !turn.done && curWaiter == Some(Async) && items == old(items))
                && (poll == Ready(Some(Err(NoEventLoop))) <==>
                      old(curWaiter).None? && isAsync && !old(taskLocal) && !turn.hasLoop)
      // The bytes of a value as they are, an error for each of the two failures, and the end after the last item
      ensures !SyncOutstanding(old(Abs())) && poll.Ready? && poll.item != Some(Err(NoEventLoop)) ==>
                if old(items) == [] then poll.item.None? && items == []
                else
                  && items == old(items)[1..]
                  && match old(items)[0]
                     case Value(bytes) => poll.item == Some(Ok(bytes))
                     case NotBytes => poll.item == Some(Err(TypeMismatch))
                     case Raised => poll.item == Some(Err(IteratorRaised))
    {
      if curWaiter.None? {
        var waiter := PyNext(turn.hasLoop);
        if waiter.None? {
          return Ready(Some(Err(NoEventLoop)));
        }
        curWaiter := waiter;
      }
      match curWaiter.value {
        case Async =>
          if turn.done {
            var value := NextItem();
            poll := Ready(value);
          } else {
            poll := Pending;
          }
        case Sync(value) =>
          poll := Ready(value);
      }
      if poll.Ready? {
        curWaiter := None;
      }
    }
  }

  // ----- Any schedule of polls -----

  /** What a schedule of polls hands on: all ready results, in order. */
  function Emitted(s: State, schedule: seq<Turn>): seq<Option<Result<Bytes, StreamError>>>
    decreases |schedule|
  {
    if schedule == [] then []
    else
      var (t, poll) := PollNext(s, schedule[0]);
      (if poll.Ready? then [poll.item] else []) + Emitted(t, schedule[1..])
  }

  /** The results that come from the iterator; the others report a missing event loop. */
  function FromIterator(out: seq<Option<Result<Bytes, StreamError>>>): seq<Option<Result<Bytes, StreamError>>> {
    if out == [] then []
    else (if out[0] == Some(Err(NoEventLoop)) then [] else [out[0]]) + FromIterator(out[1..])
  }

  /** Whenever a step may have to be started there is an event loop for it. */
  predicate HasLoop(s: State, schedule: seq<Turn>) {
    !s.isAsync || s.taskLocal || forall turn <- schedule :: turn.hasLoop
  }

  function After(s: State, schedule: seq<Turn>): State
    decreases |schedule|
  {
    if schedule == [] then s else After(PollNext(s, schedule[0]).0, schedule[1..])
  }

  /** The first `n` results of an iterator: its items, and then the sentinel for ever. */
  function Promised(items: seq<Item>, n: nat): seq<Option<Result<Bytes, StreamError>>> {
    if n == 0 then [] else [Front(items)] + Promised(Rest(items), n - 1)
  }

  /** Between two polls only an async step can be outstanding. */
  predicate BetweenPolls(s: State) {
    s.curWaiter.None? || (s.isAsync && s.curWaiter == Some(Async))
  }

  lemma EmittedFirst(s: State, schedule: seq<Turn>)
    requires schedule != []
    ensures var (t, poll) := PollNext(s, schedule[0]);
            var more := Emitted(t, schedule[1..]);
            FromIterator(Emitted(s, schedule))
            == (if poll.Ready? && poll.item != Some(Err(NoEventLoop)) then [poll.item] else []) + FromIterator(more)
  {
    var (t, poll) := PollNext(s, schedule[0]);
    var more := Emitted(t, schedule[1..]);
    if poll.Ready? {
      assert ([poll.item] + more)[1..] == more;
    } else {
      assert [] + more == more;
    }
  }

  /** One poll: it hands on the next result of the iterator, or takes nothing from it. */
  lemma PollTakes(s: State, turn: Turn)
    requires BetweenPolls(s)
    ensures var (t, poll) := PollNext(s, turn);
            var given := poll.Ready? && poll.item != Some(Err(NoEventLoop));
            && BetweenPolls(t) && t.isAsync == s.isAsync
            && (given ==> poll.item == Front(s.items))
            && t.items == (if given then Rest(s.items) else s.items)
            && t.started + (if s.curWaiter.Some? then 1 else 0)
            == s.started + (if given then 1 else 0) + (if t.curWaiter.Some? then 1 else 0)
  {
  }

  /** Errors for a missing event loop cost nothing: what comes from the iterator is what it promised. */
  lemma {:induction false} EmitsPromised(s: State, schedule: seq<Turn>)
    requires BetweenPolls(s)
    ensures var out := FromIterator(Emitted(s, schedule));
            var t := After(s, schedule);
            && out == Promised(s.items, |out|)
            && BetweenPolls(t) && t.isAsync == s.isAsync
            && t.started + (if s.curWaiter.Some? then 1 else 0)
            == s.started + |out| + (if t.curWaiter.Some? then 1 else 0)
    decreases |schedule|
  {
    if schedule != [] {
      EmittedFirst(s, schedule);
      PollTakes(s, schedule[0]);
      EmitsPromised(PollNext(s, schedule[0]).0, schedule[1..]);
    }
  }

  /** With an event loop everything that is emitted comes from the iterator. */
  lemma {:induction false} AllFromIterator(s: State, schedule: seq<Turn>)
    requires BetweenPolls(s) && HasLoop(s, schedule)
    ensures FromIterator(Emitted(s, schedule)) == Emitted(s, schedule)
    decreases |schedule|
  {
    if schedule != [] {
      var t := PollNext(s, schedule[0]).0;
      assert HasLoop(t, schedule[1..]) by {
        assert schedule[0] in schedule;
        assert forall turn <- schedule[1..] :: turn in schedule;
      }
      EmittedFirst(s, schedule);
      AllFromIterator(t, schedule[1..]);
    }
  }

  lemma {:induction false} PromisedItems(items: seq<Item>, n: nat)
    ensures |Promised(items, n)| == n
    ensures forall k | 0 <= k < n ::
              Promised(items, n)[k] == if k < |items| then Some(Extract(items[k])) else None
  {
    if n > 0 {
      PromisedItems(Rest(items), n - 1);
    }
  }

  /** The results are those of the items, one by one, and then the sentinel. */
  ghost predicate ItemsOf(items: seq<Item>, out: seq<Option<Result<Bytes, StreamError>>>) {
    forall k | 0 <= k < |out| ::
      if k >= |items| then out[k].None?
      else match items[k]
           case Value(bytes) => out[k] == Some(Ok(bytes))
           case NotBytes => out[k] == Some(Err(TypeMismatch))
           case Raised => out[k] == Some(Err(IteratorRaised))
  }

  /** The chunks that were handed on. */
  function OkBytes(out: seq<Option<Result<Bytes, StreamError>>>): seq<Bytes> {
    if out == [] then []
    else (if out[0].Some? && out[0].value.Ok? then [out[0].value.value] else []) + OkBytes(out[1..])
  }

  /** The chunks that an iterator has to give. */
  function GivenBytes(items: seq<Item>): seq<Bytes> {
    if items == [] then []
    else (if items[0].Value? then [items[0].bytes] else []) + GivenBytes(items[1..])
  }

  /** All chunks of the iterator are handed on, in order and unchanged. */
  lemma {:induction false} PromisedBytes(items: seq<Item>, n: nat)
    ensures n >= |items| ==> OkBytes(Promised(items, n)) == GivenBytes(items)
  {
    if n > 0 {
      PromisedBytes(Rest(items), n - 1);
      var more := Promised(Rest(items), n - 1);
      assert Promised(items, n)[1..] == more;
    }
  }

  /**
   * Every schedule of polls gives the items of the iterator in order and then the sentinel, whatever polls
   * come in between and however often they find the waiter pending. An error for a missing event loop takes
   * nothing from the iterator, and with an event loop there is none.
   */
  lemma PollScheduleIndependence(s: State, schedule: seq<Turn>)
    requires BetweenPolls(s)
    ensures ItemsOf(s.items, FromIterator(Emitted(s, schedule)))
    ensures HasLoop(s, schedule) ==> ItemsOf(s.items, Emitted(s, schedule))
    ensures var out := FromIterator(Emitted(s, schedule));
            |out| >= |s.items| ==> OkBytes(out) == GivenBytes(s.items)
  {
    EmitsPromised(s, schedule);
    PromisedItems(s.items, |FromIterator(Emitted(s, schedule))|);
    PromisedBytes(s.items, |FromIterator(Emitted(s, schedule))|);
    if HasLoop(s, schedule) {
      AllFromIterator(s, schedule);
    }
  }

  /** One step is asked for per result, and at most one more is outstanding. */
  lemma OneOutstanding(items: seq<Item>, isAsync: bool, taskLocal: bool, schedule: seq<Turn>)
    ensures var s := State(items, None, isAsync, taskLocal, 0);
            var t := After(s, schedule);
            && (t.curWaiter.Some? ==> isAsync && t.curWaiter == Some(Async))
            && t.started == |FromIterator(Emitted(s, schedule))| + (if t.curWaiter.Some? then 1 else 0)
  {
    EmitsPromised(State(items, None, isAsync, taskLocal, 0), schedule);
  }

  /** A pending poll changes nothing but having asked for the step: no waiter is ever dropped. */
  lemma PendingKeepsWaiter(s: State, turn: Turn)
    requires PollNext(s, turn).1.Pending?
    ensures var t := PollNext(s, turn).0;
            && t.curWaiter == Some(Async) && t.items == s.items
            && (s.curWaiter.Some? ==> t == s)
            && t.started == s.started + (if s.curWaiter.Some? then 0 else 1)
  {
  }
}
