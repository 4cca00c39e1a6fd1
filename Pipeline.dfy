/**
 * The workers composed: any interleaving of their loop bodies, of lines from
 * the controller to either reader, and of the path planner delivering
 * commands with the locations they are expected to reach. Over every such
 * run the movement lock admits at most one command at a time, locations reach
 * the app in the order they were planned, and the shared state keeps its
 * invariants.
 */
module Pipeline {
  import opened Options
  import opened ControllerLink
  import opened Orchestrator

  datatype Event =
    | AppReceive(msg: AppMessage, apiUp: bool)   // recv_android
    | StmReceive(line: string)                   // recv_stm
    | ControllerReceive(line: string)            // receive_thread
    | FollowerTake                               // command_follower: get
    | FollowerForward                            // command_follower: wait, acquire, forward
    | ActionDispatch                             // rpi_action
    | PlannerOutput(commands: seq<string>, path: seq<Location>)  // request_algo's results

  function Next(s: PiState, e: Event): PiState {
    match e
    case AppReceive(msg, apiUp) => RecvAndroidStep(s, msg, apiUp)
    case StmReceive(line) => RecvStmStep(s, line)
    case ControllerReceive(line) => s.(link := ReceiveStep(s.link, line))
    case FollowerTake => FollowerTakeStep(s)
    case FollowerForward => FollowerForwardStep(s)
    case ActionDispatch => RpiActionStep(s)
    case PlannerOutput(commands, path) =>
      s.(commandQueue := s.commandQueue + commands, pathQueue := s.pathQueue + path)
  }

  function Run(s: PiState, es: seq<Event>): PiState
    decreases |es|
  {
    if es == [] then s else Next(Run(s, es[..|es| - 1]), es[|es| - 1])
  }

  /** The step takes the movement lock. */
  predicate Acquires(s: PiState, e: Event) {
    e.FollowerForward? && FollowerProceeds(s)
  }

  /** The step releases the movement lock. */
  predicate Releases(s: PiState, e: Event) {
    e.StmReceive? && ReleasesLock(s, e.line)
  }

  /** The step hands a command to the controller link. */
  predicate Forwards(s: PiState, e: Event) {
    Acquires(s, e) && IsStm32Command(s.takenCommand.value)
  }

  function AcquireCount(s: PiState, es: seq<Event>): nat
    decreases |es|
  {
    if es == [] then 0
    else
      var init := es[..|es| - 1];
      AcquireCount(s, init) + (if Acquires(Run(s, init), es[|es| - 1]) then 1 else 0)
  }

  function ReleaseCount(s: PiState, es: seq<Event>): nat
    decreases |es|
  {
    if es == [] then 0
    else
      var init := es[..|es| - 1];
      ReleaseCount(s, init) + (if Releases(Run(s, init), es[|es| - 1]) then 1 else 0)
  }

  function ForwardCount(s: PiState, es: seq<Event>): nat
    decreases |es|
  {
    if es == [] then 0
    else
      var init := es[..|es| - 1];
      ForwardCount(s, init) + (if Forwards(Run(s, init), es[|es| - 1]) then 1 else 0)
  }

  /** Only the follower takes the lock and only a releasing acknowledgment frees it. */
  lemma LockStep(s: PiState, e: Event)
    ensures Next(s, e).movementLocked ==
      if Acquires(s, e) then true else if Releases(s, e) then false else s.movementLocked
    ensures !(Acquires(s, e) && Releases(s, e))
  {
    match e
    case AppReceive(msg, apiUp) => RecvAndroidReportsNothing(s, msg, apiUp);
    case StmReceive(line) => RecvStmEffects(s, line);
    case _ =>
  }

  /**
   * Starting with the lock free, the acquisitions so far exceed the releases
   * by exactly one while the lock is held and by none otherwise.
   */
  lemma {:induction false} LockAccounting(s: PiState, es: seq<Event>)
    requires !s.movementLocked
    ensures AcquireCount(s, es) == ReleaseCount(s, es) + (if Run(s, es).movementLocked then 1 else 0)
    ensures ForwardCount(s, es) <= AcquireCount(s, es)
    decreases |es|
  {
    if es != [] {
      var init := es[..|es| - 1];
      LockAccounting(s, init);
      var p := Run(s, init);
      LockStep(p, es[|es| - 1]);
    }
  }

  /** At most one command forwarded and not yet acknowledged, at every point of every run. */
  lemma AtMostOneInFlight(s: PiState, es: seq<Event>)
    requires !s.movementLocked
    ensures ReleaseCount(s, es) <= AcquireCount(s, es) <= ReleaseCount(s, es) + 1
    ensures ForwardCount(s, es) <= ReleaseCount(s, es) + 1
  {
    LockAccounting(s, es);
  }

  /** Every location the planner delivered during a run, in order. */
  function Planned(es: seq<Event>): seq<Location>
    decreases |es|
  {
    if es == [] then []
    else Planned(es[..|es| - 1]) + (if es[|es| - 1].PlannerOutput? then es[|es| - 1].path else [])
  }

  /** The shared-state invariants every step keeps. */
  predicate Invariant(s: PiState) {
    && s.currentLocation == LastReported(s.androidQueue)
    && KeyedById(s.obstacles)
  }

  /** `t` keeps the invariant, adds `planned` to the expected locations, and keeps an open gate open. */
  predicate KeepsInvariant(s: PiState, t: PiState, planned: seq<Location>) {
    && Invariant(t)
    && Reported(t.androidQueue) + t.pathQueue == Reported(s.androidQueue) + s.pathQueue + planned
    && (s.unpause ==> t.unpause)
  }

  lemma ReportsKeptKeepInvariant(s: PiState, t: PiState)
    requires Invariant(s) && KeyedById(t.obstacles) && (s.unpause ==> t.unpause)
    requires Reported(t.androidQueue) + t.pathQueue == Reported(s.androidQueue) + s.pathQueue
    requires t.currentLocation == LastReported(t.androidQueue)
    ensures KeepsInvariant(s, t, [])
  {
    assert Reported(s.androidQueue) + s.pathQueue + [] == Reported(s.androidQueue) + s.pathQueue;
  }

  lemma UnchangedReportsKeepInvariant(s: PiState, t: PiState)
    requires Invariant(s) && KeyedById(t.obstacles) && (s.unpause ==> t.unpause)
    requires t.androidQueue == s.androidQueue && t.pathQueue == s.pathQueue && t.currentLocation == s.currentLocation
    ensures KeepsInvariant(s, t, [])
  {
    ReportsKeptKeepInvariant(s, t);
  }

  lemma AppReceiveKeepsInvariant(s: PiState, msg: AppMessage, apiUp: bool)
    requires Invariant(s)
    ensures KeepsInvariant(s, RecvAndroidStep(s, msg, apiUp), [])
  {
    RecvAndroidReportsNothing(s, msg, apiUp);
    ReportsKeptKeepInvariant(s, RecvAndroidStep(s, msg, apiUp));
  }

  lemma StmReceiveKeepsInvariant(s: PiState, line: string)
    requires Invariant(s)
    ensures KeepsInvariant(s, RecvStmStep(s, line), [])
  {
    RecvStmKeepsLocationOrder(s, line);
    ReportsKeptKeepInvariant(s, RecvStmStep(s, line));
  }

  lemma PlannerOutputKeepsInvariant(s: PiState, commands: seq<string>, path: seq<Location>)
    requires Invariant(s)
    ensures KeepsInvariant(s, Next(s, PlannerOutput(commands, path)), path)
  {
    assert Reported(s.androidQueue) + (s.pathQueue + path) == Reported(s.androidQueue) + s.pathQueue + path;
  }

  /**
   * Every worker step keeps the invariant, preserves "locations reported, then
   * locations expected" apart from what the planner adds, and never closes an open gate.
   */
  lemma StepKeepsInvariant(s: PiState, e: Event)
    requires Invariant(s)
    ensures KeepsInvariant(s, Next(s, e), if e.PlannerOutput? then e.path else [])
  {
    match e
    case AppReceive(msg, apiUp) => AppReceiveKeepsInvariant(s, msg, apiUp);
    case StmReceive(line) => StmReceiveKeepsInvariant(s, line);
    case ControllerReceive(line) => UnchangedReportsKeepInvariant(s, s.(link := ReceiveStep(s.link, line)));
    case FollowerTake => UnchangedReportsKeepInvariant(s, FollowerTakeStep(s));
    case FollowerForward => UnchangedReportsKeepInvariant(s, FollowerForwardStep(s));
    case ActionDispatch => UnchangedReportsKeepInvariant(s, RpiActionStep(s));
    case PlannerOutput(commands, path) => PlannerOutputKeepsInvariant(s, commands, path);
  }

  /**
   * Over any run from a state satisfying the invariant: the invariant still
   * holds (the current location is the last one reported, obstacles are keyed
   * by id), the locations reported followed by those still expected are the
   * old ones followed by everything planned since (so locations reach the app
   * in planning order, none lost or invented), and an open gate stays open.
   */
  lemma KeepsInvariantChains(s: PiState, p: PiState, t: PiState, a: seq<Location>, b: seq<Location>)
    requires KeepsInvariant(s, p, a) && KeepsInvariant(p, t, b)
    ensures KeepsInvariant(s, t, a + b)
  {
    assert Reported(s.androidQueue) + s.pathQueue + a + b == Reported(s.androidQueue) + s.pathQueue + (a + b);
  }

  lemma {:induction false} RunKeepsInvariant(s: PiState, es: seq<Event>)
    requires Invariant(s)
    ensures KeepsInvariant(s, Run(s, es), Planned(es))
    decreases |es|
  {
    if es == [] {
      assert Reported(s.androidQueue) + s.pathQueue + [] == Reported(s.androidQueue) + s.pathQueue;
    } else {
      var init, e := es[..|es| - 1], es[|es| - 1];
      RunKeepsInvariant(s, init);
      var p := Run(s, init);
      StepKeepsInvariant(p, e);
      KeepsInvariantChains(s, p, Next(p, e), Planned(init), if e.PlannerOutput? then e.path else []);
    }
  }

  /** From a fresh orchestrator, the locations reported so far are exactly the first ones planned, in order. */
  lemma ReportedInPlanOrder(link: LinkState, es: seq<Event>)
    ensures var t := Run(InitialState(link), es);
      && |Reported(t.androidQueue)| <= |Planned(es)|
      && Reported(t.androidQueue) == Planned(es)[..|Reported(t.androidQueue)|]
      && t.currentLocation == LastReported(t.androidQueue)
  {
    var s := InitialState(link);
    RunKeepsInvariant(s, es);
    var t := Run(s, es);
    assert Reported(s.androidQueue) + s.pathQueue + Planned(es) == Planned(es);
    var r := Reported(t.androidQueue);
    assert r == (r + t.pathQueue)[..|r|];
  }
}
