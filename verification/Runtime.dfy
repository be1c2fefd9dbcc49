/** The global runtime configuration, and the two runtimes that are built from it at most once. */
module Runtime {
  import opened Wrappers

  /** The tuning fields of the multi-threaded runtime; None leaves the choice to the runtime. */
  datatype Tuning = Tuning(workerThreads: Option<nat>, maxBlockingThreads: Option<nat>, keepAlive: Option<nat>)

  datatype Field = WorkerThreads | MaxBlockingThreads | KeepAlive

  function Get(t: Tuning, f: Field): Option<nat> {
    match f
    case WorkerThreads => t.workerThreads
    case MaxBlockingThreads => t.maxBlockingThreads
    case KeepAlive => t.keepAlive
  }

  function Set(t: Tuning, f: Field, value: Option<nat>): Tuning {
    match f
    case WorkerThreads => t.(workerThreads := value)
    case MaxBlockingThreads => t.(maxBlockingThreads := value)
    case KeepAlive => t.(keepAlive := value)
  }

  datatype Kind = SingleThreaded | MultiThreaded

  /** The content of a once-cell: a runtime with the tuning it was built with, or the error of its build. */
  datatype Built = Working(tuning: Tuning) | Failed

  /** `built` holds what the builds gave, from the moment of the build on; `cells` what requests can see of it. */
  datatype State = State(
    multithreaded: Option<bool>,
    tuning: Tuning,
    initialized: bool,
    built: map<Kind, Built>,
    cells: map<Kind, Built>,
    builds: map<Kind, nat>,
    asked: set<Kind>)

  /**
   * A request for a handle chooses a kind; the first one builds its runtime, in a thread and under the lock of
   * the configuration, and only later fills the cell. Other steps can come at any point between.
   */
  datatype Step =
    | SetDefault(enable: Option<bool>)
    | SetField(field: Field, value: Option<nat>)
    | AskHandle(multi: Option<bool>)
    | BuildRuntime(kind: Kind, buildOk: bool)
    | FillCell(kind: Kind)

  function Start(): State {
    State(None, Tuning(None, None, None), false, map[], map[], map[SingleThreaded := 0, MultiThreaded := 0], {})
  }

  predicate CanSet(s: State, f: Field, value: Option<nat>) {
    !(Get(s.tuning, f) != value && s.initialized)
  }

  function Choose(s: State, kind: Option<bool>): Kind {
    var multi := if kind.Some? then kind.value
                 else if s.multithreaded.Some? then s.multithreaded.value
                 else MultiThreaded in s.cells;
    if multi then MultiThreaded else SingleThreaded
  }

  function Apply(s: State, step: Step): State {
    match step
    case SetDefault(enable) => s.(multithreaded := enable)
    case SetField(f, value) => if CanSet(s, f, value) then s.(tuning := Set(s.tuning, f, value)) else s
    case AskHandle(kind) => s.(asked := s.asked + {Choose(s, kind)})
    case BuildRuntime(kind, buildOk) =>
      if kind in s.asked && kind !in s.built && kind in s.builds then
        s.(built := s.built[kind := if buildOk then Working(s.tuning) else Failed],
           builds := s.builds[kind := s.builds[kind] + 1],
           initialized := s.initialized || (kind.MultiThreaded? && buildOk))
      else s
    case FillCell(kind) =>
      if kind in s.built && kind !in s.cells then s.(cells := s.cells[kind := s.built[kind]]) else s
  }

  function Replay(s: State, steps: seq<Step>): State {
    if steps == [] then s else Apply(Replay(s, steps[..|steps| - 1]), steps[|steps| - 1])
  }

  /** The global configuration together with the once-cells of the two runtimes. */
  class RuntimeConfig {
    var multithreaded: Option<bool>
    var tuning: Tuning
    var initialized: bool
    var cells: map<Kind, Built>
    ghost var built: map<Kind, Built>
    ghost var builds: map<Kind, nat>
    ghost var asked: set<Kind>

    ghost function Abs(): State
      reads this
    {
      State(multithreaded, tuning, initialized, built, cells, builds, asked)
    }

    constructor ()
      ensures Abs() == Start()
    {
      multithreaded, tuning, initialized := None, Tuning(None, None, None), false;
      cells, built, builds, asked := map[], map[], map[SingleThreaded := 0, MultiThreaded := 0], {};
    }

    method SetDefaultKind(enable: Option<bool>)
      modifies this`multithreaded
      ensures Abs() == Apply(old(Abs()), SetDefault(enable)) && multithreaded == enable
    {
      multithreaded := enable;
    }

    /** A changed value is refused once the multi-threaded runtime runs; the same value is always fine. */
    method SetConfigCheckInit(field: Field, value: Option<nat>) returns (ok: bool)
      modifies this`tuning
      ensures Abs() == Apply(old(Abs()), SetField(field, value))
      ensures ok <==> (!initialized || Get(old(tuning), field) == value)
      ensures ok ==> Get(tuning, field) == value
      ensures initialized ==> tuning == old(tuning)
      // The named field, and no other
      ensures ok ==>
                match field
                case WorkerThreads => tuning == old(tuning).(workerThreads := value)
                case MaxBlockingThreads => tuning == old(tuning).(maxBlockingThreads := value)
                case KeepAlive => tuning == old(tuning).(keepAlive := value)
    {
      if Get(tuning, field) != value && initialized {
        return false;
      }
      tuning := Set(tuning, field, value);
      ok := true;
    }

    /** Builds a runtime under the lock, and marks the configuration as used. */
    method BuildTokioRuntime(multiThread: bool, buildOk: bool) returns (r: Built)
      modifies this`initialized
      ensures r == if buildOk then Working(tuning) else Failed
      ensures initialized == (old(initialized) || (multiThread && buildOk))
    {
      if !buildOk {
        return Failed;
      }
      if multiThread {
        initialized := true;
      }
      r := Working(tuning);
    }

    /** The handle of a runtime, which is built when it is first asked for and never again. */
    method GlobalHandle(multi: Option<bool>, buildOk: bool) returns (r: Built)
      requires Inv(Abs()) && built == cells
      modifies this`initialized, this`cells, this`built, this`builds, this`asked
      ensures Inv(Abs()) && built == cells
      ensures var kind := Choose(old(Abs()), multi);
              && Abs() == Opened(Apply(old(Abs()), AskHandle(multi)), kind, buildOk)
              && kind in cells && r == cells[kind]
              && (kind in old(cells) ==> r == old(cells)[kind] && initialized == old(initialized))
      // What was asked for, else the default, else the multi-threaded runtime exactly if it is already there
      ensures var multiThreaded := if multi.Some? then multi.value
                                   else if old(multithreaded).Some? then old(multithreaded).value
                                   else MultiThreaded in old(cells);
              && (multiThreaded ==> MultiThreaded in cells && r == cells[MultiThreaded] && SameCell(old(cells), SingleThreaded))
              && (!multiThreaded ==> SingleThreaded in cells && r == cells[SingleThreaded] && SameCell(old(cells), MultiThreaded))
              // A new runtime has the tuning of this moment
              && (multiThreaded && MultiThreaded !in old(cells) ==>
                    r == (if buildOk then Working(tuning) else Failed) && initialized == (old(initialized) || buildOk))
              && (!multiThreaded ==> initialized == old(initialized))
      ensures tuning == old(tuning) && multithreaded == old(multithreaded)
    {
      var kind := ChooseKind(multi);
      StepInv(Abs(), AskHandle(multi));
      asked := asked + {kind};
      r := OpenOnce(kind, buildOk);
    }

    /** The cell of this kind is as it was. */
    ghost predicate SameCell(before: map<Kind, Built>, kind: Kind)
      reads this
    {
      (kind in cells <==> kind in before) && (kind in cells ==> cells[kind] == before[kind])
    }

    method ChooseKind(multi: Option<bool>) returns (kind: Kind)
      ensures kind == Choose(Abs(), multi)
      ensures kind.MultiThreaded? <==>
              if multi.Some? then multi.value
              else if multithreaded.Some? then multithreaded.value else MultiThreaded in cells
    {
      var multithreads := MultiThreaded in cells; // Use the multi-threaded runtime if it already exists
      if multi.Some? {
        multithreads := multi.value;
      } else if multithreaded.Some? {
        multithreads := multithreaded.value;
      }
      kind := if multithreads then MultiThreaded else SingleThreaded;
    }

    method OpenOnce(kind: Kind, buildOk: bool) returns (r: Built)
      requires Inv(Abs()) && built == cells && kind in asked
      modifies this`initialized, this`cells, this`built, this`builds
      ensures Abs() == Opened(old(Abs()), kind, buildOk) && Inv(Abs()) && built == cells
      ensures kind in cells && r == cells[kind]
      ensures kind in old(cells) ==> r == old(cells)[kind] && initialized == old(initialized)
      ensures forall other | other != kind :: SameCell(old(cells), other)
      ensures kind !in old(cells) ==>
                r == (if buildOk then Working(tuning) else Failed)
                && initialized == (old(initialized) || (kind.MultiThreaded? && buildOk))
    {
      OpenedInv(Abs(), kind, buildOk);
      if kind !in cells {
        FillOnce(kind, buildOk);
      }
      r := cells[kind];
    }

    method FillOnce(kind: Kind, buildOk: bool)
      requires kind in asked && kind !in built && kind !in cells && kind in builds
      modifies this`initialized, this`cells, this`built, this`builds
      ensures Abs() == Opened(old(Abs()), kind, buildOk)
      ensures cells == old(cells)[kind := built[kind]] && built == old(built)[kind := built[kind]]
      ensures built[kind] == (if buildOk then Working(tuning) else Failed)
      ensures initialized == (old(initialized) || (kind.MultiThreaded? && buildOk))
    {
      builds := builds[kind := builds[kind] + 1];
      var result := BuildTokioRuntime(kind.MultiThreaded?, buildOk);
      built := built[kind := result];
      cells := cells[kind := result];
    }
  }

  /** A cell is opened: its runtime is built and seen, unless it was there. */
  function Opened(s: State, kind: Kind, buildOk: bool): State {
    Apply(Apply(s, BuildRuntime(kind, buildOk)), FillCell(kind))
  }

  predicate Inv(s: State) {
    && s.builds.Keys == {SingleThreaded, MultiThreaded}
    && (forall k <- s.builds :: s.builds[k] == if k in s.built then 1 else 0)
    // A cell shows the one build of its kind
    && (forall k <- s.cells :: k in s.built && s.cells[k] == s.built[k])
    // The configuration is frozen exactly while a multi-threaded runtime works with it
    && (s.initialized <==> MultiThreaded in s.built && s.built[MultiThreaded].Working?)
    && (s.initialized ==> s.built[MultiThreaded] == Working(s.tuning))
  }

  lemma OpenedInv(s: State, kind: Kind, buildOk: bool)
    requires Inv(s)
    ensures Inv(Opened(s, kind, buildOk))
  {
    StepInv(s, BuildRuntime(kind, buildOk));
    StepInv(Apply(s, BuildRuntime(kind, buildOk)), FillCell(kind));
  }

  /** What was built stays. */
  predicate Keeps(s: State, t: State) {
    && (forall k <- s.built :: k in t.built && t.built[k] == s.built[k])
    && (forall k <- s.cells :: k in t.cells && t.cells[k] == s.cells[k])
  }

  lemma StepInv(s: State, step: Step)
    requires Inv(s)
    ensures Inv(Apply(s, step)) && Keeps(s, Apply(s, step))
  {
  }

  lemma {:induction false} ReplayInv(s: State, steps: seq<Step>)
    requires Inv(s)
    ensures Inv(Replay(s, steps)) && Keeps(s, Replay(s, steps))
  {
    if steps != [] {
      var front := steps[..|steps| - 1];
      ReplayInv(s, front);
      StepInv(Replay(s, front), steps[|steps| - 1]);
    }
  }

  /**
   * Once a multi-threaded runtime works, the tuning is for ever the one it was built with, a setter succeeds
   * exactly when it changes nothing, and no runtime of either kind is ever built twice.
   */
  lemma ConfigurationFreeze(before: seq<Step>, after: seq<Step>, f: Field, value: Option<nat>)
    ensures var s := Replay(Start(), before);
            var t := Replay(s, after);
            && (s.initialized ==>
                  && t.initialized && t.tuning == s.tuning
                  && MultiThreaded in s.built && s.built[MultiThreaded] == Working(t.tuning)
                  && (MultiThreaded in t.cells ==> t.cells[MultiThreaded] == Working(t.tuning))
                  && (CanSet(t, f, value) <==> Get(t.tuning, f) == value)
                  && Apply(t, SetField(f, value)) == t)
            && (forall k <- t.builds :: t.builds[k] <= 1)
            && (forall k <- s.cells :: k in t.cells && t.cells[k] == s.cells[k])
  {
    ReplayInv(Start(), before);
    var s := Replay(Start(), before);
    ReplayInv(s, after);
    var t := Replay(s, after);
    assert forall k <- t.builds :: t.builds[k] == if k in t.built then 1 else 0;
    if s.initialized {
      assert MultiThreaded in s.built;
    }
  }

  /** What a program can ask of the configuration. */
  datatype Call = Default(enable: Option<bool>) | Tune(field: Field, value: Option<nat>) | Handle(multi: Option<bool>, buildOk: bool)

  function ApplyCall(s: State, call: Call): State {
    match call
    case Default(enable) => Apply(s, SetDefault(enable))
    case Tune(field, value) => Apply(s, SetField(field, value))
    case Handle(multi, buildOk) => Opened(Apply(s, AskHandle(multi)), Choose(s, multi), buildOk)
  }

  function ReplayCalls(calls: seq<Call>): State {
    if calls == [] then Start() else ApplyCall(ReplayCalls(calls[..|calls| - 1]), calls[|calls| - 1])
  }

  lemma OpenedCells(s: State, kind: Kind, buildOk: bool)
    requires Inv(s) && s.built == s.cells && kind in s.asked
    ensures var t := Opened(s, kind, buildOk);
            t.cells.Keys == s.cells.Keys + {kind} && t.tuning == s.tuning && t.multithreaded == s.multithreaded
  {
  }

  /** A call opens the cell that it asks for and no other. */
  lemma CallOpens(s: State, multi: Option<bool>, buildOk: bool)
    requires Inv(s) && s.built == s.cells
    ensures var t := ApplyCall(s, Handle(multi, buildOk));
            var multiThreaded := if multi.Some? then multi.value
                                 else if s.multithreaded.Some? then s.multithreaded.value else MultiThreaded in s.cells;
            && t.cells.Keys == s.cells.Keys + {if multiThreaded then MultiThreaded else SingleThreaded}
            && t.tuning == s.tuning && t.multithreaded == s.multithreaded
  {
    OpenedCells(Apply(s, AskHandle(multi)), Choose(s, multi), buildOk);
  }

  predicate AskedIn(call: Call, cells: map<Kind, Built>) {
    call.Handle? && call.multi.Some? ==> (if call.multi.value then MultiThreaded else SingleThreaded) in cells
  }

  method Make(config: RuntimeConfig, call: Call)
    requires Inv(config.Abs()) && config.built == config.cells
    modifies config
    ensures Inv(config.Abs()) && config.built == config.cells && config.Abs() == ApplyCall(old(config.Abs()), call)
    ensures AskedIn(call, config.cells) && forall kind <- old(config.cells) :: kind in config.cells
  {
    match call
    case Default(enable) => config.SetDefaultKind(enable);
    case Tune(field, value) =>
      var _ := config.SetConfigCheckInit(field, value);
    case Handle(multi, buildOk) =>
      var _ := config.GlobalHandle(multi, buildOk);
  }

  /** Any program on the configuration ends where its calls lead, with a configuration frozen by its runtime. */
  method Configure(calls: seq<Call>) returns (config: RuntimeConfig)
    ensures fresh(config) && config.Abs() == ReplayCalls(calls) && Inv(config.Abs())
    ensures config.initialized ==>
              MultiThreaded in config.cells && config.cells[MultiThreaded] == Working(config.tuning)
    // Each runtime that a call asked for by name is there
    ensures forall call <- calls :: AskedIn(call, config.cells)
  {
    config := new RuntimeConfig();
    for k := 0 to |calls|
      invariant fresh(config) && config.Abs() == ReplayCalls(calls[..k]) && Inv(config.Abs())
      invariant config.built == config.cells
      invariant forall j | 0 <= j < k :: AskedIn(calls[j], config.cells)
    {
      assert calls[..k + 1][..k] == calls[..k];
      Make(config, calls[k]);
    }
    assert calls[..|calls|] == calls;
  }
}
