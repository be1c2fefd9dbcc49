/**
 * The bridge between a coroutine on a Python event loop and a future that waits for its result.
 *
 * The event loop runs `on_init` once and later `on_done`; the waiter polls and may cancel. All four lock the
 * same inner state, so each is one atomic step, and they interleave freely.
 */
module AsyncioBridge {
  import opened Wrappers

  /** What the one-shot sender carries: why the task could not start, or what the extractor made of its result. */
  datatype Message = InitFailed | TaskResult(ok: bool)

  /** The optional fields of the inner state. */
  datatype Bridge = Bridge(tx: bool, extractor: bool, coro: bool, task: bool)

  /** What one locked call does: the new fields, and what it did to the event loop and the sender. */
  datatype Effect = Effect(bridge: Bridge, created: bool, registered: bool, sent: Option<Message>, cancelled: bool)

  function InitTask(b: Bridge, createOk: bool, registerOk: bool): Effect {
    var created := b.coro && createOk;
    var registered := created && registerOk;
    var taken := b.(coro := false);
    if registered then Effect(taken.(task := true), true, true, None, false)
    else Effect(taken.(tx := false), created, false, if b.tx then Some(InitFailed) else None, false)
  }

  function HandleDone(b: Bridge, ok: bool): Effect {
    Effect(b.(task := false, extractor := false, tx := false), false, false,
           if b.tx then Some(TaskResult(ok && b.extractor)) else None, false)
  }

  function Cancel(b: Bridge): Effect {
    Effect(b.(coro := false, task := false), false, false, None, b.task)
  }

  /** The inner state; the results of calls into the event loop are parameters. */
  class BridgeInner {
    var tx: bool
    var extractor: bool
    var coro: bool
    var task: bool

    function Fields(): Bridge
      reads this
    {
      Bridge(tx, extractor, coro, task)
    }

    constructor ()
      ensures Fields() == Bridge(true, true, true, false)
    {
      tx, extractor, coro, task := true, true, true, false;
    }

    method Send(message: Message) returns (sent: Option<Message>)
      modifies this`tx
      ensures !tx && sent == if old(tx) then Some(message) else None
    {
      sent := if tx then Some(message) else None;
      tx := false;
    }

    method OnInit(createOk: bool, registerOk: bool)
      returns (created: bool, registered: bool, sent: Option<Message>)
      modifies this
      ensures Effect(Fields(), created, registered, sent, false) == InitTask(old(Fields()), createOk, registerOk)
      ensures !coro && extractor == old(extractor)
      ensures created == (old(coro) && createOk) && registered == (created && registerOk)
      ensures task == (old(task) || registered) && tx == (old(tx) && registered)
      ensures sent == if old(tx) && !registered then Some(InitFailed) else None
    {
      created, registered, sent := false, false, None;
      var hadCoro := coro;
      coro := false;
      if hadCoro {
        created := createOk;
        if created && registerOk {
          registered := true;
          task := true;
        }
      }
      if !registered {
        sent := Send(InitFailed);
      }
    }

    method OnDone(ok: bool) returns (sent: Option<Message>)
      modifies this
      ensures Effect(Fields(), false, false, sent, false) == HandleDone(old(Fields()), ok)
      ensures !tx && !extractor && !task && coro == old(coro)
      ensures sent == if old(tx) then Some(TaskResult(ok && old(extractor))) else None
    {
      task := false;
      var res := extractor && ok;
      extractor := false;
      sent := Send(TaskResult(res));
    }

    method CancelTask() returns (cancelled: bool)
      modifies this
      ensures Effect(Fields(), false, false, None, cancelled) == Cancel(old(Fields()))
      ensures cancelled == old(task) && !task && !coro && tx == old(tx) && extractor == old(extractor)
    {
      coro := false;
      cancelled := task;
      task := false;
    }
  }

  // ----- All interleavings -----

  /** The task on the event loop: `callback` says whether `on_done` is registered with it. */
  datatype LoopTask = NoTask | Running(callback: bool) | Finished(callback: bool, ok: bool) | Called(ok: bool)

  /** The future: waiting, after how its last poll left it, or over. */
  datatype Waiter = Waiting(registered: bool) | Resolved(message: Message) | WasCancelled | Dropped

  datatype State = State(
    bridge: Bridge,
    initScheduled: bool,
    loopTask: LoopTask,
    channel: Option<Message>,
    waiter: Waiter,
    cancelRequested: bool,
    woken: bool,
    created: nat,
    cancels: nat,
    sends: nat)

  datatype Step =
    | RunInit(createOk: bool, registerOk: bool)
    | TaskEnds(ok: bool)
    | RunDone
    | RequestCancel
    | Poll
    | DropWaiter

  function Start(): State {
    State(Bridge(true, true, true, false), true, NoTask, None, Waiting(false), false, true, 0, 0, 0)
  }

  /** Applies what a locked call did. A message wakes the waiter that left its waker with the channel. */
  function Settle(s: State, e: Effect): State {
    s.(bridge := e.bridge,
       created := s.created + (if e.created then 1 else 0),
       cancels := s.cancels + (if e.cancelled then 1 else 0),
       sends := s.sends + (if e.sent.Some? then 1 else 0),
       channel := if e.sent.Some? then e.sent else s.channel,
       woken := s.woken || (e.sent.Some? && s.waiter == Waiting(true)))
  }

  function Apply(s: State, step: Step): State {
    match step
    case RunInit(createOk, registerOk) =>
      if s.initScheduled then
        var e := InitTask(s.bridge, createOk, registerOk);
        Settle(s, e).(initScheduled := false, loopTask := if e.created then Running(e.registered) else s.loopTask)
      else s
    case TaskEnds(ok) => if s.loopTask.Running? then s.(loopTask := Finished(s.loopTask.callback, ok)) else s
    case RunDone =>
      if s.loopTask.Finished? && s.loopTask.callback then
        Settle(s, HandleDone(s.bridge, s.loopTask.ok)).(loopTask := Called(s.loopTask.ok))
      else s
    case RequestCancel =>
      s.(cancelRequested := true, woken := s.woken || (!s.cancelRequested && s.waiter == Waiting(true)))
    case Poll =>
      if !s.waiter.Waiting? then s
      else if s.cancelRequested then Settle(s, Cancel(s.bridge)).(waiter := WasCancelled)
      else if s.channel.Some? then s.(waiter := Resolved(s.channel.value))
      else s.(waiter := Waiting(true), woken := false)
    case DropWaiter => if s.waiter.Waiting? then s.(waiter := Dropped) else s
  }

  function Replay(s: State, steps: seq<Step>): State {
    if steps == [] then s else Apply(Replay(s, steps[..|steps| - 1]), steps[|steps| - 1])
  }

  /** The task that `on_done` still has to report on. */
  predicate TaskReports(t: LoopTask) {
    (t.Running? || t.Finished?) && t.callback
  }

  /** What settles a waiter that is still waiting. */
  predicate WillSettle(s: State) {
    s.channel.Some? || s.initScheduled || TaskReports(s.loopTask)
  }

  predicate Inv(s: State) {
    // The sender is used exactly once, by whoever reports first
    && s.sends <= 1 && (s.sends == 0 <==> s.bridge.tx) && (s.channel.Some? <==> s.sends == 1)
    && WillSettle(s)
    // Only what happened since the last poll can be unseen, and then the waiter was woken
    && (s.waiter == Waiting(true) && (s.channel.Some? || s.cancelRequested) ==> s.woken)
    && (s.waiter == Waiting(false) ==> s.woken)
    // The task
    && s.created <= 1 && (s.loopTask.NoTask? <==> s.created == 0)
    && (s.initScheduled ==> s.loopTask.NoTask? && s.bridge.tx && s.bridge.extractor && !s.bridge.task)
    && (s.initScheduled ==> (s.bridge.coro <==> !s.waiter.WasCancelled?))
    && (TaskReports(s.loopTask) ==> s.bridge.tx && s.bridge.extractor)
    && (s.bridge.task ==> TaskReports(s.loopTask))
    // Cancelling
    && s.cancels <= 1
    && (s.cancels == 1 ==> s.waiter.WasCancelled?)
    && (TaskReports(s.loopTask) ==> (s.bridge.task <==> s.cancels == 0) && (s.cancels == 1 <==> s.waiter.WasCancelled?))
    && (s.created == 0 ==> s.cancels == 0)
    // The result is the task's own
    && (s.loopTask.Called? ==> s.channel == Some(TaskResult(s.loopTask.ok)))
    && (s.channel.Some? && s.channel.value.TaskResult? ==> s.loopTask.Called?)
    && (s.waiter.Resolved? ==> s.channel == Some(s.waiter.message))
  }

  lemma RunInitInv(s: State, createOk: bool, registerOk: bool)
    requires Inv(s)
    ensures Inv(Apply(s, RunInit(createOk, registerOk)))
  {
  }

  lemma RunDoneInv(s: State)
    requires Inv(s)
    ensures Inv(Apply(s, RunDone))
  {
  }

  lemma PollInv(s: State)
    requires Inv(s)
    ensures Inv(Apply(s, Poll))
  {
  }

  lemma StepInv(s: State, step: Step)
    requires Inv(s)
    ensures Inv(Apply(s, step))
  {
    match step
    case RunInit(createOk, registerOk) => RunInitInv(s, createOk, registerOk);
    case RunDone => RunDoneInv(s);
    case Poll => PollInv(s);
    case _ =>
  }

  lemma {:induction false} Reachable(steps: seq<Step>)
    ensures Inv(Replay(Start(), steps))
  {
    if steps != [] {
      Reachable(steps[..|steps| - 1]);
      StepInv(Replay(Start(), steps[..|steps| - 1]), steps[|steps| - 1]);
    }
  }

  /**
   * A pending waiter is never forgotten: its settling is scheduled, running or done, and if a message or a
   * cancellation arrived after its last poll, it was woken.
   */
  lemma NoLostWakeup(steps: seq<Step>)
    ensures var s := Replay(Start(), steps);
            s.waiter.Waiting? ==>
              && (s.initScheduled || TaskReports(s.loopTask) || s.channel.Some?)
              && (!s.woken ==> s.channel.None? && !s.cancelRequested && s.waiter == Waiting(true))
  {
    Reachable(steps);
  }

  /** The result arrives once, is the task's own, and never changes; at most one task is made and cancelled. */
  lemma SettlesOnce(steps: seq<Step>, step: Step)
    ensures var s := Replay(Start(), steps);
            var t := Apply(s, step);
            && s.sends <= 1 && s.created <= 1 && s.cancels <= s.created
            && (s.channel.Some? ==> t.channel == s.channel && t.sends == s.sends)
            && (s.waiter.Resolved? ==> s.channel == Some(s.waiter.message))
            && (s.channel.Some? && s.channel.value.TaskResult? <==> s.loopTask.Called?)
            && (s.loopTask.Called? ==> s.channel.value.ok == s.loopTask.ok)
  {
    Reachable(steps);
    StepInv(Replay(Start(), steps), step);
  }

  /** A cancel that comes before `on_init` means that no task is ever made, whatever happens later. */
  lemma {:induction false} CancelBeforeInit(before: seq<Step>, after: seq<Step>)
    requires var s := Replay(Start(), before); s.initScheduled && s.waiter.WasCancelled?
    ensures var t := Replay(Replay(Start(), before), after);
            t.created == 0 && t.cancels == 0 && t.waiter.WasCancelled? && !t.bridge.coro && t.loopTask.NoTask?
  {
    var s := Replay(Start(), before);
    if after == [] {
      Reachable(before);
    } else {
      CancelBeforeInit(before, after[..|after| - 1]);
    }
  }

  /** A cancel that comes between `on_init` and `on_done` cancels the task, and exactly once for ever. */
  lemma {:induction false} CancelAfterInit(before: seq<Step>, after: seq<Step>)
    requires var s := Replay(Start(), before);
             TaskReports(s.loopTask) && s.waiter.Waiting? && s.cancelRequested
    ensures var t := Replay(Apply(Replay(Start(), before), Poll), after);
            t.created == 1 && t.cancels == 1 && t.waiter.WasCancelled? && Inv(t)
  {
    var s := Apply(Replay(Start(), before), Poll);
    Reachable(before);
    StepInv(Replay(Start(), before), Poll);
    if after != [] {
      CancelAfterInit(before, after[..|after| - 1]);
      StepInv(Replay(s, after[..|after| - 1]), after[|after| - 1]);
    }
  }

  /** A poll looks for a cancellation first, and only then for a message. */
  lemma PollOrder(s: State)
    requires s.waiter.Waiting?
    ensures var t := Apply(s, Poll);
            && (s.cancelRequested ==> t.waiter == WasCancelled && t.channel == s.channel)
            && (!s.cancelRequested && s.channel.Some? ==> t.waiter == Resolved(s.channel.value))
            && (!s.cancelRequested && s.channel.None? ==> t.waiter == Waiting(true))
  {
  }

  /** Once a waiter is asked to cancel its next poll says so, even if a result arrives in between. */
  lemma {:induction false} CancelStands(s: State, steps: seq<Step>)
    requires s.waiter.Waiting? && forall step <- steps :: !step.Poll? && !step.DropWaiter?
    ensures var t := Replay(Apply(s, RequestCancel), steps);
            t.waiter.Waiting? && t.cancelRequested && Apply(t, Poll).waiter == WasCancelled
  {
    if steps != [] {
      var n := |steps| - 1;
      assert forall step <- steps[..n] :: step in steps;
      CancelStands(s, steps[..n]);
      assert steps[n] in steps;
    }
  }

  // ----- Progress -----

  function LoopWork(s: State): nat {
    if s.initScheduled then 3
    else if s.loopTask.Running? then 2
    else if s.loopTask.Finished? then 1
    else 0
  }

  /** What the event loop does next; the outcomes are up to Python. */
  function LoopStep(s: State, createOk: bool, registerOk: bool, ok: bool): Step {
    if s.initScheduled then RunInit(createOk, registerOk)
    else if s.loopTask.Running? then TaskEnds(ok)
    else RunDone
  }

  function RunLoop(s: State, n: nat, createOk: bool, registerOk: bool, ok: bool): State
    decreases n
  {
    if n == 0 || s.channel.Some? then s
    else RunLoop(Apply(s, LoopStep(s, createOk, registerOk, ok)), n - 1, createOk, registerOk, ok)
  }

  /** While nobody has settled the waiter, the event loop has something to do. */
  lemma LoopStepWorks(s: State, createOk: bool, registerOk: bool, ok: bool)
    requires Inv(s) && s.channel.None?
    ensures var t := Apply(s, LoopStep(s, createOk, registerOk, ok));
            && Inv(t) && LoopWork(t) < LoopWork(s)
            && t.waiter == s.waiter && t.cancelRequested == s.cancelRequested
  {
    StepInv(s, LoopStep(s, createOk, registerOk, ok));
  }

  /** However the task fares, three turns of the event loop settle every waiter, and its next poll is final. */
  lemma {:induction false} EventLoopSettles(s: State, n: nat, createOk: bool, registerOk: bool, ok: bool)
    requires Inv(s) && LoopWork(s) <= n
    ensures var t := RunLoop(s, n, createOk, registerOk, ok);
            && Inv(t) && t.channel.Some? && t.waiter == s.waiter && t.cancelRequested == s.cancelRequested
            && (s.waiter.Waiting? && !s.cancelRequested ==> Apply(t, Poll).waiter == Resolved(t.channel.value))
    decreases n
  {
    if n > 0 && s.channel.None? {
      LoopStepWorks(s, createOk, registerOk, ok);
      EventLoopSettles(Apply(s, LoopStep(s, createOk, registerOk, ok)), n - 1, createOk, registerOk, ok);
    }
  }

  /** A task that was started, and is not forgotten by its event loop, reports its own result. */
  lemma {:induction false} StartedTaskReports(s: State, n: nat, createOk: bool, registerOk: bool, ok: bool)
    requires Inv(s) && LoopWork(s) <= n && !s.initScheduled && TaskReports(s.loopTask)
    requires s.loopTask.Finished? ==> s.loopTask.ok == ok
    ensures RunLoop(s, n, createOk, registerOk, ok).channel == Some(TaskResult(ok))
    decreases n
  {
    var step := LoopStep(s, createOk, registerOk, ok);
    StepInv(s, step);
    if s.loopTask.Running? {
      StartedTaskReports(Apply(s, step), n - 1, createOk, registerOk, ok);
    }
  }
}
