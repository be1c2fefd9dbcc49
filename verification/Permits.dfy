/**
 * The connection limit over any number of concurrent requests.
 *
 * Every request runs in a spawned task that first waits for a permit. The permit belongs to the task: it moves
 * on into the reader task of a streamed body, whose every step is a step of the body protocol, and a caller that
 * is cancelled, or whose client is closed, only lets go of the task.
 */
module Permits {
  import opened Wrappers
  import B = BodyProtocol
  import BodyProofs
  import BodyBounds
  import Chunks

  datatype Caller = Awaiting | Gone | Answered

  /**
   * How far the task of a request has come; from `Granted` to `Streaming` it owns a permit. While it streams,
   * `body` is the state of its reader task, its channel and the consumer.
   */
  datatype Phase = Queued | Granted | Executing | Prefetching | Streaming(body: B.State) | Over

  datatype Request = Request(
    phase: Phase,
    caller: Caller,
    source: B.Source,
    config: B.ReadConfig,
    timed: bool,
    acquired: nat,
    released: nat)

  datatype State = State(limit: nat, available: nat, requests: seq<Request>)

  /** How a task comes to its end. */
  datatype Exit = PoolTimeout | LateAcquire | ExecuteError | InitializeError | FullyRead | ReaderDone | Aborted

  datatype Step =
    | Submit(source: B.Source, config: B.ReadConfig, timed: bool)
    | Grant(i: nat)
    | StartExecute(i: nat)
    | ResponseHead(i: nat)
    | StartReader(i: nat)
    | BodyStep(i: nat, step: B.Step)
    | Finish(i: nat, exit: Exit)
    | CallerLeaves(i: nat)

  predicate Owns(r: Request) {
    r.phase.Granted? || r.phase.Executing? || r.phase.Prefetching? || r.phase.Streaming?
  }

  /** The reader task of a streamed body is over. */
  predicate TaskEnded(body: B.State) {
    body.link.Some? && body.link.value.task.Ended?
  }

  /** The prefetch left something to stream, and how the stream starts. */
  function StreamStart(r: Request): Option<B.State> {
    var start := B.Start(r.source, r.config);
    if start.Some? && start.value.link.Some? then start else None
  }

  /** Which ends a phase allows. A reader task that is aborted meets its end in the body protocol. */
  predicate CanFinish(r: Request, exit: Exit) {
    match exit
    case PoolTimeout => r.phase.Queued? && r.timed
    case LateAcquire => r.phase.Granted? && r.timed
    case ExecuteError => r.phase.Executing?
    case InitializeError => r.phase.Prefetching? && B.Start(r.source, r.config).None?
    case FullyRead => r.phase.Prefetching? && B.Start(r.source, r.config).Some? && StreamStart(r).None?
    case ReaderDone => r.phase.Streaming? && TaskEnded(r.phase.body)
    case Aborted => !r.phase.Over? && !r.phase.Streaming?
  }

  function Answer(c: Caller): Caller {
    if c.Awaiting? then Answered else c
  }

  predicate InPhase(s: State, i: nat, phase: Phase) {
    i < |s.requests| && s.requests[i].phase == phase
  }

  function Move(s: State, i: nat, phase: Phase): State
    requires i < |s.requests|
  {
    s.(requests := s.requests[i := s.requests[i].(phase := phase)])
  }

  function Ended(r: Request): Request {
    r.(phase := Over, caller := Answer(r.caller), released := if Owns(r) then r.released + 1 else r.released)
  }

  function Apply(s: State, step: Step): State {
    match step
    case Submit(source, config, timed) =>
      s.(requests := s.requests + [Request(Queued, Awaiting, source, config, timed, 0, 0)])
    case Grant(i) =>
      if InPhase(s, i, Queued) && s.available > 0 then
        var r := s.requests[i];
        s.(available := s.available - 1,
           requests := s.requests[i := r.(phase := Granted, acquired := r.acquired + 1)])
      else s
    case StartExecute(i) => if InPhase(s, i, Granted) then Move(s, i, Executing) else s
    case ResponseHead(i) => if InPhase(s, i, Executing) then Move(s, i, Prefetching) else s
    case StartReader(i) =>
      if InPhase(s, i, Prefetching) && StreamStart(s.requests[i]).Some? then
        var r := s.requests[i];
        s.(requests := s.requests[i := r.(phase := Streaming(StreamStart(r).value), caller := Answer(r.caller))])
      else s
    case BodyStep(i, step) =>
      if i < |s.requests| && s.requests[i].phase.Streaming?
      then Move(s, i, Streaming(B.Apply(s.requests[i].phase.body, step))) else s
    case Finish(i, exit) =>
      if i < |s.requests| && CanFinish(s.requests[i], exit) then
        s.(available := if Owns(s.requests[i]) then s.available + 1 else s.available,
           requests := s.requests[i := Ended(s.requests[i])])
      else s
    case CallerLeaves(i) =>
      if i < |s.requests| && s.requests[i].caller.Awaiting? then
        s.(requests := s.requests[i := s.requests[i].(caller := Gone)])
      else s
  }

  function Replay(s: State, steps: seq<Step>): State {
    if steps == [] then s else Apply(Replay(s, steps[..|steps| - 1]), steps[|steps| - 1])
  }

  function Start(limit: nat): State {
    State(limit, limit, [])
  }

  function OwnedCount(requests: seq<Request>): nat {
    if requests == [] then 0
    else OwnedCount(requests[..|requests| - 1]) + (if Owns(requests[|requests| - 1]) then 1 else 0)
  }

  lemma {:induction false} OwnedUpdate(requests: seq<Request>, i: nat, r: Request)
    requires i < |requests|
    ensures OwnedCount(requests[i := r]) + (if Owns(requests[i]) then 1 else 0)
         == OwnedCount(requests) + (if Owns(r) then 1 else 0)
  {
    var n := |requests| - 1;
    if i == n {
      assert requests[i := r][..n] == requests[..n];
    } else {
      OwnedUpdate(requests[..n], i, r);
      assert requests[i := r][..n] == requests[..n][i := r];
    }
  }

  /** A permit is acquired at most once, is owned exactly while it is out, and is returned exactly once. */
  predicate Settled(r: Request) {
    && r.acquired == r.released + (if Owns(r) then 1 else 0)
    && r.acquired <= 1
    && (r.phase.Queued? ==> r.acquired == 0)
    // A caller that waits is answered when the body starts to stream or the task is over, and not before
    && (r.phase.Streaming? || r.phase.Over? ==> !r.caller.Awaiting?)
    && (r.caller.Answered? ==> r.phase.Streaming? || r.phase.Over?)
  }

  /** A streaming request is in a reachable state of its body, with a reader task. */
  ghost predicate BodyInStep(r: Request) {
    r.phase.Streaming? ==> r.phase.body.link.Some? && B.Inv(r.source, r.phase.body)
  }

  ghost predicate AllInStep(requests: seq<Request>) {
    requests == []
    || (AllInStep(requests[..|requests| - 1])
        && Settled(requests[|requests| - 1]) && BodyInStep(requests[|requests| - 1]))
  }

  lemma {:induction false} InStepAt(requests: seq<Request>, i: nat)
    requires AllInStep(requests) && i < |requests|
    ensures Settled(requests[i]) && BodyInStep(requests[i])
  {
    if i < |requests| - 1 {
      InStepAt(requests[..|requests| - 1], i);
    }
  }

  lemma {:induction false} InStepUpdate(requests: seq<Request>, i: nat, r: Request)
    requires AllInStep(requests) && i < |requests| && Settled(r) && BodyInStep(r)
    ensures AllInStep(requests[i := r])
  {
    var n := |requests| - 1;
    if i == n {
      assert requests[i := r][..n] == requests[..n];
    } else {
      InStepUpdate(requests[..n], i, r);
      assert requests[i := r][..n] == requests[..n][i := r];
    }
  }

  ghost predicate Inv(s: State) {
    s.available + OwnedCount(s.requests) == s.limit && AllInStep(s.requests)
  }

  lemma StartInStep(r: Request)
    requires StreamStart(r).Some?
    ensures BodyInStep(r.(phase := Streaming(StreamStart(r).value)))
  {
    BodyProofs.StartInv(r.source, r.config);
  }

  lemma BodyStepInStep(r: Request, step: B.Step)
    requires r.phase.Streaming? && BodyInStep(r)
    ensures BodyInStep(r.(phase := Streaming(B.Apply(r.phase.body, step))))
  {
    BodyProofs.StepInv(r.source, r.phase.body, step);
  }

  /** A step changes at most its own request, and keeps that one settled and in step with its body. */
  lemma StepOne(s: State, step: Step)
    requires !step.Submit? && step.i < |s.requests| && Settled(s.requests[step.i]) && BodyInStep(s.requests[step.i])
    ensures var t := Apply(s, step);
            && |t.requests| == |s.requests| && t.requests == s.requests[step.i := t.requests[step.i]]
            && Settled(t.requests[step.i]) && BodyInStep(t.requests[step.i])
            && t.limit == s.limit
            && t.available + (if Owns(t.requests[step.i]) then 1 else 0)
            == s.available + (if Owns(s.requests[step.i]) then 1 else 0)
  {
    var r := s.requests[step.i];
    if step.StartReader? && StreamStart(r).Some? {
      StartInStep(r);
    }
    if step.BodyStep? && r.phase.Streaming? {
      BodyStepInStep(r, step.step);
    }
  }

  lemma SubmitInv(s: State, step: Step)
    requires Inv(s) && step.Submit?
    ensures Inv(Apply(s, step))
  {
    assert Apply(s, step).requests[..|s.requests|] == s.requests;
  }

  lemma UpdateInv(s: State, t: State, i: nat, r: Request)
    requires Inv(s) && i < |s.requests| && t.requests == s.requests[i := r] && t.limit == s.limit
    requires Settled(r) && BodyInStep(r)
    requires t.available + (if Owns(r) then 1 else 0) == s.available + (if Owns(s.requests[i]) then 1 else 0)
    ensures Inv(t)
  {
    InStepUpdate(s.requests, i, r);
    OwnedUpdate(s.requests, i, r);
  }

  lemma StepInv(s: State, step: Step)
    requires Inv(s)
    ensures Inv(Apply(s, step))
  {
    if step.Submit? {
      SubmitInv(s, step);
    } else if step.i < |s.requests| {
      InStepAt(s.requests, step.i);
      StepOne(s, step);
      UpdateInv(s, Apply(s, step), step.i, Apply(s, step).requests[step.i]);
    }
  }

  /** In every reachable state the free permits and the permits owned by tasks make the limit. */
  lemma {:induction false} Conservation(limit: nat, steps: seq<Step>)
    ensures var s := Replay(Start(limit), steps);
            && s.limit == limit && Inv(s)
            && s.available + OwnedCount(s.requests) == limit
            && (forall i | 0 <= i < |s.requests| && s.requests[i].phase.Over? ::
                  s.requests[i].acquired == s.requests[i].released <= 1)
  {
    if steps != [] {
      var before := Replay(Start(limit), steps[..|steps| - 1]);
      Conservation(limit, steps[..|steps| - 1]);
      StepInv(before, steps[|steps| - 1]);
    }
    var s := Replay(Start(limit), steps);
    forall i | 0 <= i < |s.requests| && s.requests[i].phase.Over?
      ensures s.requests[i].acquired == s.requests[i].released <= 1
    {
      InStepAt(s.requests, i);
    }
  }

  // ----- Who ends a task -----

  /** No time limit, no timeout: such a request waits for its permit until it gets it, or is aborted. */
  lemma {:induction false} UntimedWaits(s: State, steps: seq<Step>, i: nat)
    requires InPhase(s, i, Queued) && !s.requests[i].timed
    requires Grant(i) !in steps && Finish(i, Aborted) !in steps
    ensures InPhase(Replay(s, steps), i, Queued) && !Replay(s, steps).requests[i].timed
  {
    if steps != [] {
      var n := |steps| - 1;
      assert forall step <- steps[..n] :: step in steps;
      UntimedWaits(s, steps[..n], i);
      assert steps[n] in steps;
      UntimedStep(Replay(s, steps[..n]), steps[n], i);
    }
  }

  lemma UntimedStep(s: State, step: Step, i: nat)
    requires InPhase(s, i, Queued) && !s.requests[i].timed && step != Grant(i) && step != Finish(i, Aborted)
    ensures InPhase(Apply(s, step), i, Queued) && !Apply(s, step).requests[i].timed
  {
  }

  /** Once it has its permit it is not ended by a time limit either. */
  lemma UntimedRuns(s: State, exit: Exit, i: nat)
    requires InPhase(s, i, Granted) && !s.requests[i].timed && !exit.Aborted?
    ensures Apply(s, Finish(i, exit)) == s
  {
  }

  /**
   * After the response head the body decides: one that breaks off in the prefetch is an error, one that reaches the
   * limit of its stream is streamed, and any other is fully read. Only an abort can do otherwise.
   */
  lemma PrefetchDecides(s: State, exit: Exit, i: nat)
    requires InPhase(s, i, Prefetching)
    ensures var r := s.requests[i];
            var size := |B.Content(r.source.frames)|;
            var streams := r.config.Streamed? && size >= r.config.limit;
            var breaksOff := r.source.fails && !r.config.NoBody? && !streams;
            && (Apply(s, StartReader(i)) != s <==> streams)
            && (Apply(s, Finish(i, exit)) != s <==>
                  exit.Aborted? || (exit.InitializeError? && breaksOff) || (exit.FullyRead? && !breaksOff && !streams))
  {
    BodyProofs.PrefetchMeans(s.requests[i].source, s.requests[i].config);
    var r := s.requests[i];
    assert Ended(r).phase.Over?;
    assert CanFinish(r, exit) ==> Apply(s, Finish(i, exit)).requests[i].phase.Over?;
    if StreamStart(r).Some? {
      assert Apply(s, StartReader(i)).requests[i].phase.Streaming?;
    }
  }

  // ----- Who gives a permit back -----

  lemma StepKeepsOwned(s: State, step: Step, i: nat)
    requires i < |s.requests| && Owns(s.requests[i])
    ensures var t := Apply(s, step);
            && i < |t.requests|
            && (!Owns(t.requests[i]) <==> step.Finish? && step.i == i && CanFinish(s.requests[i], step.exit))
  {
  }

  /**
   * A permit stays out until the end of the task that owns it, whatever callers, clients and other tasks do in
   * the meantime.
   */
  lemma {:induction false} StillOwned(s: State, steps: seq<Step>, i: nat)
    requires i < |s.requests| && Owns(s.requests[i])
    requires forall step <- steps :: step.Finish? ==> step.i != i
    ensures i < |Replay(s, steps).requests| && Owns(Replay(s, steps).requests[i])
  {
    if steps != [] {
      var n := |steps| - 1;
      assert forall step <- steps[..n] :: step in steps;
      StillOwned(s, steps[..n], i);
      assert steps[n] in steps;
      StepKeepsOwned(Replay(s, steps[..n]), steps[n], i);
    }
  }

  lemma StreamingPermit(r: Request)
    requires r.phase.Streaming? && Settled(r)
    ensures Owns(r) && r.acquired == 1 && r.released == 0
    ensures forall exit :: CanFinish(r, exit) <==> exit.ReaderDone? && TaskEnded(r.phase.body)
  {
  }

  /** While a body streams, its permit is out, and it can come back if and only if the reader task is over. */
  lemma PermitFollowsReaderTask(limit: nat, steps: seq<Step>, i: nat)
    requires var s := Replay(Start(limit), steps); i < |s.requests| && s.requests[i].phase.Streaming?
    ensures var s := Replay(Start(limit), steps);
            var r := s.requests[i];
            && Owns(r) && r.acquired == 1 && r.released == 0
            && (forall exit :: CanFinish(r, exit) <==> exit.ReaderDone? && TaskEnded(r.phase.body))
            && B.Inv(r.source, r.phase.body)
  {
    Conservation(limit, steps);
    var r := Replay(Start(limit), steps).requests[i];
    InStepAt(Replay(Start(limit), steps).requests, i);
    StreamingPermit(r);
  }

  lemma StepGone(s: State, step: Step, i: nat)
    requires i < |Apply(s, step).requests| && step != CallerLeaves(i)
    ensures Apply(s, step).requests[i].caller.Gone? ==> i < |s.requests| && s.requests[i].caller.Gone?
  {
  }

  lemma {:induction false} GoneByLeaving(limit: nat, steps: seq<Step>, i: nat)
    requires CallerLeaves(i) !in steps && i < |Replay(Start(limit), steps).requests|
    ensures !Replay(Start(limit), steps).requests[i].caller.Gone?
  {
    if steps != [] {
      var n := |steps| - 1;
      assert forall step <- steps[..n] :: step in steps;
      assert steps[n] in steps;
      StepGone(Replay(Start(limit), steps[..n]), steps[n], i);
      if i < |Replay(Start(limit), steps[..n]).requests| {
        GoneByLeaving(limit, steps[..n], i);
      }
    }
  }

  /** Every caller that stays is answered, exactly when its body starts to stream or its task is over. */
  lemma CallersAreAnswered(limit: nat, steps: seq<Step>, i: nat)
    requires CallerLeaves(i) !in steps && i < |Replay(Start(limit), steps).requests|
    ensures var r := Replay(Start(limit), steps).requests[i];
            && (r.caller.Answered? <==> r.phase.Streaming? || r.phase.Over?)
            && (r.caller.Awaiting? <==> !r.phase.Streaming? && !r.phase.Over?)
  {
    Conservation(limit, steps);
    InStepAt(Replay(Start(limit), steps).requests, i);
    GoneByLeaving(limit, steps, i);
  }

  /** The same steps without those in which a caller leaves. */
  function Undisturbed(steps: seq<Step>): seq<Step> {
    if steps == [] then []
    else
      var front, last := Undisturbed(steps[..|steps| - 1]), steps[|steps| - 1];
      if last.CallerLeaves? then front else front + [last]
  }

  predicate SameTask(r: Request, q: Request) {
    q == r.(caller := q.caller)
  }

  /** The same tasks and permits; only what became of the callers may differ. */
  predicate SameTasks(s: State, t: State) {
    && t.limit == s.limit && t.available == s.available && |t.requests| == |s.requests|
    && (forall i | 0 <= i < |s.requests| :: SameTask(s.requests[i], t.requests[i]))
  }

  lemma StepIgnoresCallers(s: State, t: State, step: Step)
    requires SameTasks(s, t)
    ensures SameTasks(Apply(s, step), Apply(t, step))
    ensures step.CallerLeaves? ==> SameTasks(Apply(s, step), t)
  {
    if !step.Submit? && step.i < |s.requests| {
      assert SameTask(s.requests[step.i], t.requests[step.i]);
    }
  }

  /** Callers that are cancelled, or whose client is closed, change no task and no permit of any run. */
  lemma {:induction false} CallersDoNotMatter(s: State, steps: seq<Step>)
    ensures SameTasks(Replay(s, steps), Replay(s, Undisturbed(steps)))
  {
    if steps != [] {
      var n := |steps| - 1;
      CallersDoNotMatter(s, steps[..n]);
      StepIgnoresCallers(Replay(s, steps[..n]), Replay(s, Undisturbed(steps[..n])), steps[n]);
      if !steps[n].CallerLeaves? {
        ReplayLast(s, Undisturbed(steps[..n]), steps[n]);
      }
    }
  }

  lemma ReplayLast(s: State, steps: seq<Step>, step: Step)
    ensures Replay(s, steps + [step]) == Apply(Replay(s, steps), step)
  {
    assert (steps + [step])[..|steps|] == steps;
  }

  // ----- The path of one request -----

  /** How many ordinary steps come before an end. */
  function Reached(end: Option<Exit>): nat {
    match end
    case Some(PoolTimeout) => 0
    case Some(LateAcquire) => 1
    case Some(ExecuteError) => 2
    case _ => 3
  }

  function FirstSteps(i: nat, n: nat): seq<Step>
    requires n <= 3
  {
    [Grant(i), StartExecute(i), ResponseHead(i)][..n]
  }

  /** The steps of a task on its own, up to one of its ends or, without one, to a streaming body. */
  function Path(i: nat, end: Option<Exit>): seq<Step> {
    FirstSteps(i, Reached(end)) + [if end.None? then StartReader(i) else Finish(i, end.value)]
  }

  /** The task of request `i` waits for its permit; unless it times out there is one. */
  predicate CanTake(s: State, i: nat, end: Option<Exit>) {
    && InPhase(s, i, Queued)
    && (end != Some(PoolTimeout) ==> s.available > 0)
    && (end == Some(PoolTimeout) || end == Some(LateAcquire) ==> s.requests[i].timed)
    && (end.None? ==> StreamStart(s.requests[i]).Some?)
    && (end == Some(InitializeError) ==> B.Start(s.requests[i].source, s.requests[i].config).None?)
    && (end == Some(FullyRead) ==> B.Start(s.requests[i].source, s.requests[i].config).Some? && StreamStart(s.requests[i]).None?)
    && (end.Some? ==> !end.value.ReaderDone? && !end.value.Aborted?)
  }

  lemma {:induction false} FirstStepsEffect(s: State, i: nat, n: nat)
    requires n <= 3 && InPhase(s, i, Queued) && (n > 0 ==> s.available > 0)
    ensures var t := Replay(s, FirstSteps(i, n));
            && InPhase(t, i, [Queued, Granted, Executing, Prefetching][n])
            && t.available == s.available - (if n > 0 then 1 else 0)
            && t.requests[i].source == s.requests[i].source && t.requests[i].config == s.requests[i].config
            && t.requests[i].timed == s.requests[i].timed
  {
    if n > 0 {
      FirstStepsEffect(s, i, n - 1);
      assert FirstSteps(i, n)[..n - 1] == FirstSteps(i, n - 1);
    }
  }

  /** The last step of a path, from the state before it. */
  lemma LastStepEffect(t: State, i: nat, end: Option<Exit>)
    requires InPhase(t, i, [Queued, Granted, Executing, Prefetching][Reached(end)])
    requires end.Some? ==> CanFinish(t.requests[i], end.value)
    requires end.None? ==> StreamStart(t.requests[i]).Some?
    ensures var u := Apply(t, if end.None? then StartReader(i) else Finish(i, end.value));
            && InPhase(u, i, if end.None? then Streaming(StreamStart(t.requests[i]).value) else Over)
            && u.available == t.available + (if end.None? || end == Some(PoolTimeout) then 0 else 1)
  {
  }

  /** Every path ends where it should, and only a streaming body still has the permit. */
  lemma PathEffect(s: State, i: nat, end: Option<Exit>)
    requires CanTake(s, i, end)
    ensures var t := Replay(s, Path(i, end));
            && InPhase(t, i, if end.None? then Streaming(StreamStart(s.requests[i]).value) else Over)
            && t.available == s.available - (if end.None? then 1 else 0)
  {
    FirstStepsEffect(s, i, Reached(end));
    LastStepEffect(Replay(s, FirstSteps(i, Reached(end))), i, end);
    assert Path(i, end)[..|Path(i, end)| - 1] == FirstSteps(i, Reached(end));
  }

  // ----- Progress -----

  /** The next step of a streaming body whose consumer reads on: the task moves, and if it cannot, a chunk is read. */
  function ReadOn(body: B.State): B.Step {
    if !BodyBounds.SendBlocked(body) then BodyBounds.TaskStep(body)
    else if body.pending != [] then B.Take
    else B.Receive
  }

  /** What is left to do for a body. */
  function BodyWork(body: B.State): nat {
    (if body.link.Some? then 4 * BodyBounds.Work(body.link.value) + |body.link.value.queue| else 0) + 3 * |B.Ahead(body)|
  }

  lemma TaskUsesUpWork(source: B.Source, body: B.State)
    requires B.Inv(source, body) && body.link.Some? && !TaskEnded(body) && !BodyBounds.SendBlocked(body)
    ensures var next := B.Apply(body, BodyBounds.TaskStep(body));
            next.link.Some? && BodyWork(next) < BodyWork(body)
  {
    BodyBounds.TaskProgress(body);
    var l := body.link.value;
    if l.task.Polling? {
      BodyProofs.PollFrameChunks(l);
    } else {
      BodyProofs.CompleteSendChunks(l);
    }
  }

  lemma ReaderUsesUpWork(source: B.Source, body: B.State)
    requires B.Inv(source, body) && body.link.Some? && BodyBounds.SendBlocked(body)
    ensures var next := B.Apply(body, ReadOn(body));
            next.link.Some? && BodyWork(next) < BodyWork(body)
  {
    if body.pending != [] {
      BodyProofs.TakeAccount(body);
    } else {
      BodyProofs.ReceiveAhead(body);
      assert body.link.value.queue[0] in body.link.value.queue;
    }
  }

  /** Steps that the task of a request, and a consumer that reads, can still take. */
  function RequestWork(r: Request): nat {
    var stream := if StreamStart(r).Some? then BodyWork(StreamStart(r).value) else 0;
    match r.phase
    case Queued => 5 + stream
    case Granted => 4 + stream
    case Executing => 3 + stream
    case Prefetching => 2 + stream
    case Streaming(body) => 1 + BodyWork(body)
    case Over => 0
  }

  function Work(requests: seq<Request>): nat {
    if requests == [] then 0
    else Work(requests[..|requests| - 1]) + RequestWork(requests[|requests| - 1])
  }

  lemma {:induction false} WorkUpdate(requests: seq<Request>, i: nat, r: Request)
    requires i < |requests|
    ensures Work(requests[i := r]) + RequestWork(requests[i]) == Work(requests) + RequestWork(r)
  {
    var n := |requests| - 1;
    if i == n {
      assert requests[i := r][..n] == requests[..n];
    } else {
      WorkUpdate(requests[..n], i, r);
      assert requests[i := r][..n] == requests[..n][i := r];
    }
  }

  lemma {:induction false} SomeOwner(requests: seq<Request>) returns (i: nat)
    requires OwnedCount(requests) > 0
    ensures i < |requests| && Owns(requests[i])
  {
    var n := |requests| - 1;
    if Owns(requests[n]) {
      i := n;
    } else {
      i := SomeOwner(requests[..n]);
    }
  }

  /** The ordinary next step of a request: no timeout, no abort, and an error only if the body has one. */
  function Onward(r: Request, i: nat): Step {
    match r.phase
    case Queued => Grant(i)
    case Granted => StartExecute(i)
    case Executing => ResponseHead(i)
    case Prefetching =>
      if B.Start(r.source, r.config).None? then Finish(i, InitializeError)
      else if StreamStart(r).Some? then StartReader(i)
      else Finish(i, FullyRead)
    case Streaming(body) => if TaskEnded(body) then Finish(i, ReaderDone) else BodyStep(i, ReadOn(body))
    case Over => Grant(i)
  }

  lemma StreamUsesUpWork(r: Request)
    requires r.phase.Streaming? && BodyInStep(r) && !TaskEnded(r.phase.body)
    ensures BodyWork(B.Apply(r.phase.body, ReadOn(r.phase.body))) < BodyWork(r.phase.body)
  {
    if BodyBounds.SendBlocked(r.phase.body) {
      ReaderUsesUpWork(r.source, r.phase.body);
    } else {
      TaskUsesUpWork(r.source, r.phase.body);
    }
  }

  /** The request after its ordinary next step. */
  function Next(r: Request): Request {
    match r.phase
    case Queued => r.(phase := Granted, acquired := r.acquired + 1)
    case Granted => r.(phase := Executing)
    case Executing => r.(phase := Prefetching)
    case Prefetching =>
      if StreamStart(r).Some? then r.(phase := Streaming(StreamStart(r).value), caller := Answer(r.caller)) else Ended(r)
    case Streaming(body) => if TaskEnded(body) then Ended(r) else r.(phase := Streaming(B.Apply(body, ReadOn(body))))
    case Over => r
  }

  lemma OnwardIsNext(s: State, i: nat)
    requires i < |s.requests| && (s.requests[i].phase.Queued? ==> s.available > 0) && !s.requests[i].phase.Over?
    ensures var t := Apply(s, Onward(s.requests[i], i)); t.limit == s.limit && t.requests == s.requests[i := Next(s.requests[i])]
  {
  }

  lemma NextUsesUpWork(r: Request)
    requires !r.phase.Over? && BodyInStep(r)
    ensures RequestWork(Next(r)) < RequestWork(r)
  {
    if r.phase.Streaming? && !TaskEnded(r.phase.body) {
      StreamUsesUpWork(r);
    } else {
      assert StreamStart(Next(r)) == StreamStart(r);
    }
  }

  lemma OnwardWorks(s: State, i: nat)
    requires Inv(s) && i < |s.requests| && !s.requests[i].phase.Over?
    requires s.requests[i].phase.Queued? ==> s.available > 0
    ensures var t := Apply(s, Onward(s.requests[i], i));
            && Inv(t) && t.limit == s.limit && |t.requests| == |s.requests|
            && Work(t.requests) < Work(s.requests)
  {
    var r := s.requests[i];
    assert Inv(Apply(s, Onward(r, i))) by {
      StepInv(s, Onward(r, i));
    }
    assert Work(s.requests[i := Next(r)]) < Work(s.requests) by {
      InStepAt(s.requests, i);
      NextUsesUpWork(r);
      WorkUpdate(s.requests, i, Next(r));
    }
    OnwardIsNext(s, i);
  }

  /** The pool never gets stuck: while some request is not over, some request can go on without any failure. */
  lemma PoolProgress(s: State, j: nat) returns (i: nat)
    requires Inv(s) && s.limit > 0
    requires j < |s.requests| && !s.requests[j].phase.Over?
    ensures i < |s.requests| && !s.requests[i].phase.Over?
    ensures var t := Apply(s, Onward(s.requests[i], i));
            && Inv(t) && t.limit == s.limit && |t.requests| == |s.requests|
            && Work(t.requests) < Work(s.requests)
  {
    i := j;
    if s.requests[j].phase.Queued? && s.available == 0 {
      i := SomeOwner(s.requests);
    }
    OnwardWorks(s, i);
  }

  /** Nothing but what an undisturbed request does: no timeout, no abort, no close, no caller that leaves. */
  predicate Ordinary(step: Step) {
    match step
    case Submit(_, _, _) => false
    case CallerLeaves(_) => false
    case Finish(_, exit) => exit.FullyRead? || exit.ReaderDone? || exit.InitializeError?
    case BodyStep(_, b) => b.FrameArrives? || b.SendProceeds? || b.Receive? || b.Take?
    case _ => true
  }

  /** Every permit comes home: from any reachable state, if consumers read on, the tasks run until all permits are free. */
  lemma {:induction false} AllPermitsReturn(s: State) returns (steps: seq<Step>)
    requires Inv(s) && s.limit > 0
    ensures var t := Replay(s, steps);
            && (forall r <- t.requests :: r.phase.Over?)
            && t.available == s.limit && |t.requests| == |s.requests|
    ensures forall step <- steps :: Ordinary(step)
    decreases Work(s.requests)
  {
    if j: nat :| j < |s.requests| && !s.requests[j].phase.Over? {
      var i := PoolProgress(s, j);
      var step := Onward(s.requests[i], i);
      var rest := AllPermitsReturn(Apply(s, step));
      steps := [step] + rest;
      ReplayFirst(s, step, rest);
    } else {
      steps := [];
      NoOwner(s.requests);
    }
  }

  /**
   * A response that nobody reads any more gives its permit back as well: a task without a receiver runs to its
   * end by itself, and its end returns the permit.
   */
  lemma {:induction false} AbandonedPermitReturns(s: State, i: nat) returns (steps: seq<Step>)
    requires Inv(s) && i < |s.requests| && s.requests[i].phase.Streaming?
    requires s.requests[i].phase.body.link.Some? && !s.requests[i].phase.body.link.value.rxOpen
    ensures var t := Replay(s, steps);
            && t.available == s.available + 1
            && |t.requests| == |s.requests| && t.requests == s.requests[i := t.requests[i]] && t.requests[i].phase.Over?
    ensures forall step <- steps ::
              step == Finish(i, ReaderDone) || step == BodyStep(i, B.FrameArrives) || step == BodyStep(i, B.SendProceeds)
    decreases BodyBounds.Work(s.requests[i].phase.body.link.value)
  {
    var body := s.requests[i].phase.body;
    if TaskEnded(body) {
      steps := [Finish(i, ReaderDone)];
      assert Replay(s, steps) == Apply(Replay(s, steps[..0]), steps[0]);
    } else {
      var step := BodyStep(i, BodyBounds.TaskStep(body));
      BodyBounds.TaskProgress(body);
      StepInv(s, step);
      var rest := AbandonedPermitReturns(Apply(s, step), i);
      steps := [step] + rest;
      ReplayFirst(s, step, rest);
    }
  }

  /** After a close the reader task can end at once, and give its permit back. */
  lemma ClosedPermitReturns(s: State, i: nat)
    requires i < |s.requests| && s.requests[i].phase.Streaming?
    requires var body := s.requests[i].phase.body; body.link.Some? && body.link.value.closeRequested
    ensures var t := Replay(s, [BodyStep(i, B.CloseObserved), Finish(i, ReaderDone)]);
            t.available == s.available + 1 && InPhase(t, i, Over)
  {
    var closed := BodyStep(i, B.CloseObserved);
    ClosedEnds(s, i);
    FinishStreaming(Apply(s, closed), i);
    ReplayLast(s, [], closed);
    ReplayLast(s, [closed], Finish(i, ReaderDone));
    assert [closed] + [Finish(i, ReaderDone)] == [closed, Finish(i, ReaderDone)] && [] + [closed] == [closed];
  }

  lemma ClosedEnds(s: State, i: nat)
    requires i < |s.requests| && s.requests[i].phase.Streaming?
    requires var body := s.requests[i].phase.body; body.link.Some? && body.link.value.closeRequested
    ensures var t := Apply(s, BodyStep(i, B.CloseObserved));
            && i < |t.requests| && t.requests[i].phase.Streaming? && TaskEnded(t.requests[i].phase.body)
            && t.available == s.available
  {
  }

  lemma FinishStreaming(s: State, i: nat)
    requires i < |s.requests| && s.requests[i].phase.Streaming? && TaskEnded(s.requests[i].phase.body)
    ensures var t := Apply(s, Finish(i, ReaderDone)); t.available == s.available + 1 && InPhase(t, i, Over)
  {
  }

  lemma {:induction false} NoOwner(requests: seq<Request>)
    requires forall r <- requests :: r.phase.Over?
    ensures OwnedCount(requests) == 0
  {
    if requests != [] {
      NoOwner(requests[..|requests| - 1]);
    }
  }

  lemma {:induction false} ReplayFirst(s: State, step: Step, rest: seq<Step>)
    ensures Replay(s, [step] + rest) == Replay(Apply(s, step), rest)
  {
    var all := [step] + rest;
    var n := |rest| - 1;
    if rest == [] {
      assert all == [step];
      assert Replay(s, [step]) == Apply(Replay(s, [step][..0]), step);
    } else {
      ReplayFirst(s, step, rest[..n]);
      assert all[..|all| - 1] == [step] + rest[..n];
    }
  }
}
