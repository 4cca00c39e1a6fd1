/**
 * The orchestrator's worker loops, one loop body at a time. Each body is a
 * pure step on a `PiState` record that holds the shared fields (the events,
 * the movement lock, the queues, the dictionaries) and the controller link it
 * hands state transitions to; the `RaspberryPi` class runs the same bodies
 * imperatively on its fields. A step whose blocking call (queue get, lock
 * acquire, event wait) would block leaves the state unchanged: that step is
 * simply not enabled yet.
 */
module Orchestrator {
  import opened Options
  import opened Text
  import opened ControllerLink

  /** A position of the robot after a command: x, y and direction d. */
  datatype Location = Location(x: int, y: int, d: int)

  /** One obstacle reported by the app, keyed by its id. */
  datatype Obstacle = Obstacle(id: int, x: int, y: int, d: int)

  /** Messages queued for the app, by category. */
  datatype AndroidMessage =
    | Info(text: string)
    | Error(text: string)
    | Mode(text: string)
    | Status(text: string)
    | LocationUpdate(location: Location)

  /** An inbound app message, already parsed from its {"cat", "value"} envelope. */
  datatype AppMessage =
    | ObstaclesMessage(obstacles: seq<Obstacle>)  // cat "obstacles"
    | ControlMessage(value: string)              // cat "control"
    | OtherMessage(cat: string)                  // any other category

  /** Work for the action worker. */
  datatype PiAction =
    | ObstaclesAction(obstacles: seq<Obstacle>)
    | SnapAction(signal: string)
    | StitchAction

  /** Calls the action worker makes to collaborators outside this model, recorded in order. */
  datatype ExternalCall =
    | RequestAlgo(obstacles: seq<Obstacle>)
    | SnapAndRec(signal: string)
    | RequestStitch

  const ApiDownText := "API is down, start command aborted."
  const StartingText := "Starting robot on path!"
  const RunningText := "running"
  const EmptyQueueText := "Command queue is empty, did you set obstacles?"

  /** The gyro reset queued when the robot is started. */
  const ResetCommand := StateCommand("RS00", 0, 0, 0)

  /** Command prefixes that go straight to the motor controller. */
  const Stm32Prefixes: seq<string> :=
    ["FS", "BS", "FW", "BW", "FL", "FR", "BL", "BR", "TL", "TR", "A", "C", "DT", "STOP", "ZZ", "RS"]

  /**
   * The shared state of the orchestrator. `takenCommand` is the command the
   * follower has taken off `commandQueue` and still holds while it waits for
   * `unpause` and the lock; `currentLocation` is None while the dictionary is
   * still empty; `androidQueue` and `externalCalls` are outbound logs.
   */
  datatype PiState = PiState(
    unpause: bool,
    movementLocked: bool,
    androidQueue: seq<AndroidMessage>,
    rpiActionQueue: seq<PiAction>,
    commandQueue: seq<string>,
    pathQueue: seq<Location>,
    rsFlag: bool,
    obstacles: map<int, Obstacle>,
    currentLocation: Option<Location>,
    takenCommand: Option<string>,
    externalCalls: seq<ExternalCall>,
    link: LinkState)

  /** The state right after construction, beside a link in state `link`. */
  function InitialState(link: LinkState): PiState {
    PiState(false, false, [], [], [], [], false, map[], None, None, [], link)
  }

  // ---------------------------------------------------------------------------
  // The forwarder's prefix test

  /** str.startswith(tuple): does `s` start with any of `prefixes`? */
  function StartsWithAny(s: string, prefixes: seq<string>): (r: bool)
    ensures r <==> exists i :: 0 <= i < |prefixes| && StartsWith(s, prefixes[i])
  {
    if prefixes == [] then false
    else if StartsWith(s, prefixes[0]) then true
    else
      var r := StartsWithAny(s, prefixes[1..]);
      assert r ==> exists i :: 0 <= i < |prefixes[1..]| && StartsWith(s, prefixes[1..][i]);
      assert forall i :: 1 <= i < |prefixes| ==> prefixes[i] == prefixes[1..][i - 1];
      r
  }

  predicate IsStm32Command(command: string) {
    StartsWithAny(command, Stm32Prefixes)
  }

  /**
   * The sixteen prefixes, read directly: a command goes to the controller iff
   * it starts with "A" or "C", with "STOP", or with one of the twelve two-letter codes.
   */
  lemma Stm32CommandsAre(command: string)
    ensures IsStm32Command(command) <==>
      || StartsWith(command, "A") || StartsWith(command, "C") || StartsWith(command, "STOP")
      || (|command| >= 2 && command[..2] in {"FS", "BS", "FW", "BW", "FL", "FR", "BL", "BR", "TL", "TR", "DT", "ZZ", "RS"})
  {
    var p := Stm32Prefixes;
    assert p[0] == "FS" && p[1] == "BS" && p[2] == "FW" && p[3] == "BW" && p[4] == "FL" && p[5] == "FR";
    assert p[6] == "BL" && p[7] == "BR" && p[8] == "TL" && p[9] == "TR" && p[10] == "A" && p[11] == "C";
    assert p[12] == "DT" && p[13] == "STOP" && p[14] == "ZZ" && p[15] == "RS";
  }

  /** Snap commands, which share the command queue, are never forwarded to the controller. */
  lemma SnapNotForwarded(command: string)
    requires StartsWith(command, "SNAP")
    ensures !IsStm32Command(command)
  {
    Stm32CommandsAre(command);
    assert command[..2] == "SN";
  }

  // ---------------------------------------------------------------------------
  // The obstacle map

  function IdsOf(obs: seq<Obstacle>): set<int> {
    set o | o in obs :: o.id
  }

  /** obs[i] is the last obstacle in `obs` with its id. */
  predicate LastWithItsId(obs: seq<Obstacle>, i: int)
    requires 0 <= i < |obs|
  {
    forall j :: i < j < |obs| ==> obs[j].id != obs[i].id
  }

  /** Every entry of the map is stored under its own id. */
  predicate KeyedById(m: map<int, Obstacle>) {
    forall k :: k in m ==> m[k].id == k
  }

  lemma IdsOfSnoc(init: seq<Obstacle>, o: Obstacle)
    ensures IdsOf(init + [o]) == IdsOf(init) + {o.id}
  {
    var obs := init + [o];
    assert forall x :: x in obs <==> x in init || x == o;
  }

  lemma LastInInit(init: seq<Obstacle>, o: Obstacle, i: int)
    requires 0 <= i < |init| && LastWithItsId(init + [o], i)
    ensures LastWithItsId(init, i)
  {
    var obs := init + [o];
    forall j | i < j < |init| ensures init[j].id != init[i].id {
      assert obs[j] == init[j] && obs[i] == init[i];
    }
  }

  /** Storing one more obstacle keeps the merge properties, now over `init + [o]`. */
  lemma MergeOneMore(m: map<int, Obstacle>, init: seq<Obstacle>, o: Obstacle, prev: map<int, Obstacle>)
    requires prev.Keys == m.Keys + IdsOf(init)
    requires forall k :: k in m && k !in IdsOf(init) ==> prev[k] == m[k]
    requires forall i :: 0 <= i < |init| && LastWithItsId(init, i) ==> prev[init[i].id] == init[i]
    requires KeyedById(m) ==> KeyedById(prev)
    ensures var obs, r := init + [o], prev[o.id := o];
      && r.Keys == m.Keys + IdsOf(obs)
      && (forall k :: k in m && k !in IdsOf(obs) ==> r[k] == m[k])
      && (forall i :: 0 <= i < |obs| && LastWithItsId(obs, i) ==> r[obs[i].id] == obs[i])
      && (KeyedById(m) ==> KeyedById(r))
  {
    var obs, r := init + [o], prev[o.id := o];
    IdsOfSnoc(init, o);
    assert r.Keys == m.Keys + IdsOf(obs);
    forall k | k in m && k !in IdsOf(obs) ensures r[k] == m[k] {
      assert k != o.id && k !in IdsOf(init);
    }
    forall i | 0 <= i < |obs| && LastWithItsId(obs, i) ensures r[obs[i].id] == obs[i] {
      if i < |init| {
        LastInInit(init, o, i);
        assert obs[i] == init[i] && obs[|init|] == o;
        assert init[i].id != o.id;
        assert prev[init[i].id] == init[i];
      } else {
        assert obs[i] == o;
      }
    }
    if KeyedById(m) {
      forall k | k in r ensures r[k].id == k {
        if k != o.id {
          assert k in prev;
        }
      }
    }
  }

  /** `for obs in obstacles: self.obstacles[obs['id']] = obs`, as a value. */
  function MergeObstacles(m: map<int, Obstacle>, obs: seq<Obstacle>): (r: map<int, Obstacle>)
    ensures r.Keys == m.Keys + IdsOf(obs)
    ensures forall k :: k in m && k !in IdsOf(obs) ==> r[k] == m[k]
    ensures forall i :: 0 <= i < |obs| && LastWithItsId(obs, i) ==> r[obs[i].id] == obs[i]
    ensures KeyedById(m) ==> KeyedById(r)
    decreases |obs|
  {
    if obs == [] then m
    else
      var init, o := obs[..|obs| - 1], obs[|obs| - 1];
      assert obs == init + [o];
      var prev := MergeObstacles(m, init);
      MergeOneMore(m, init, o, prev);
      prev[o.id := o]
  }

  // ---------------------------------------------------------------------------
  // Reported locations

  /** The locations reported to the app, in the order they were queued. */
  function Reported(q: seq<AndroidMessage>): seq<Location>
    decreases |q|
  {
    if q == [] then []
    else Reported(q[..|q| - 1]) + (if q[|q| - 1].LocationUpdate? then [q[|q| - 1].location] else [])
  }

  /** The most recent location reported to the app, if any. */
  function LastReported(q: seq<AndroidMessage>): Option<Location>
    decreases |q|
  {
    if q == [] then None
    else if q[|q| - 1].LocationUpdate? then Some(q[|q| - 1].location)
    else LastReported(q[..|q| - 1])
  }

  /** Appending messages that are not location updates reports nothing new. */
  lemma {:induction false} AppendUnreported(q: seq<AndroidMessage>, more: seq<AndroidMessage>)
    requires forall k :: 0 <= k < |more| ==> !more[k].LocationUpdate?
    ensures Reported(q + more) == Reported(q)
    ensures LastReported(q + more) == LastReported(q)
    decreases |more|
  {
    if more == [] {
      assert q + more == q;
    } else {
      var init := more[..|more| - 1];
      assert (q + more)[..|q + more| - 1] == q + init;
      AppendUnreported(q, init);
    }
  }

  // ---------------------------------------------------------------------------
  // recv_android: one inbound app message

  /** The body of recv_android for one parsed message; `apiUp` is what check_api() returns. */
  function RecvAndroidStep(s: PiState, msg: AppMessage, apiUp: bool): PiState {
    match msg
    case ObstaclesMessage(obs) => s.(rpiActionQueue := s.rpiActionQueue + [ObstaclesAction(obs)])
    case ControlMessage(value) =>
      if value != "start" then s
      else
        var afterCheck := if apiUp then s.androidQueue else s.androidQueue + [Error(ApiDownText)];
        if s.commandQueue != [] then
          s.(link := EnqueueStep(s.link, ResetCommand), unpause := true,
             androidQueue := afterCheck + [Info(StartingText), Status(RunningText)])
        else
          s.(androidQueue := afterCheck + [Error(EmptyQueueText)])
    case OtherMessage(_) => s
  }

  /** An "obstacles" message queues exactly one action carrying the obstacles, and touches nothing else. */
  lemma ObstaclesMessageQueuesAction(s: PiState, obs: seq<Obstacle>, apiUp: bool)
    ensures var t := RecvAndroidStep(s, ObstaclesMessage(obs), apiUp);
      && t.rpiActionQueue == s.rpiActionQueue + [ObstaclesAction(obs)]
      && t.(rpiActionQueue := s.rpiActionQueue) == s
  {
  }

  /**
   * "start" opens the gate iff commands are queued: then the reset goes on
   * the serial queue and the app gets info then status "running"; otherwise
   * the app gets one error and nothing is queued. A failed API check adds one
   * error first and does not stop either branch.
   */
  lemma StartOutcome(s: PiState, apiUp: bool)
    ensures var t := RecvAndroidStep(s, ControlMessage("start"), apiUp);
      var check := if apiUp then [] else [Error(ApiDownText)];
      && (t.unpause <==> s.unpause || s.commandQueue != [])
      && (s.commandQueue != [] ==>
            && t.link.queue == s.link.queue + [ResetCommand]
            && t.androidQueue == s.androidQueue + check + [Info(StartingText), Status(RunningText)])
      && (s.commandQueue == [] ==>
            && t.link == s.link
            && t.androidQueue == s.androidQueue + check + [Error(EmptyQueueText)])
      && t.link.wire == s.link.wire
      && t.commandQueue == s.commandQueue && t.movementLocked == s.movementLocked
      && t == s.(unpause := t.unpause, link := t.link, androidQueue := t.androidQueue)
  {
  }

  /** The messages "start" adds to the app queue, in order. */
  function StartMessages(s: PiState, apiUp: bool): seq<AndroidMessage> {
    (if apiUp then [] else [Error(ApiDownText)])
    + (if s.commandQueue != [] then [Info(StartingText), Status(RunningText)] else [Error(EmptyQueueText)])
  }

  lemma StartReportsNothing(s: PiState, apiUp: bool)
    ensures var t := RecvAndroidStep(s, ControlMessage("start"), apiUp);
      && t.androidQueue == s.androidQueue + StartMessages(s, apiUp)
      && Reported(t.androidQueue) == Reported(s.androidQueue)
      && LastReported(t.androidQueue) == LastReported(s.androidQueue)
  {
    var t := RecvAndroidStep(s, ControlMessage("start"), apiUp);
    var check: seq<AndroidMessage> := if apiUp then [] else [Error(ApiDownText)];
    var tail: seq<AndroidMessage> :=
      if s.commandQueue != [] then [Info(StartingText), Status(RunningText)] else [Error(EmptyQueueText)];
    var afterCheck := s.androidQueue + check;
    assert t.androidQueue == afterCheck + tail;
    assert afterCheck + tail == s.androidQueue + (check + tail);
    AppendUnreported(s.androidQueue, check);
    AppendUnreported(afterCheck, tail);
  }

  /** An inbound app message never reports a location, never touches the lock, and never closes the gate. */
  lemma RecvAndroidReportsNothing(s: PiState, msg: AppMessage, apiUp: bool)
    ensures var t := RecvAndroidStep(s, msg, apiUp);
      && Reported(t.androidQueue) == Reported(s.androidQueue)
      && LastReported(t.androidQueue) == LastReported(s.androidQueue)
      && t.movementLocked == s.movementLocked && t.pathQueue == s.pathQueue
      && t.currentLocation == s.currentLocation && t.obstacles == s.obstacles
      && (s.unpause ==> t.unpause)
  {
    var t := RecvAndroidStep(s, msg, apiUp);
    if msg == ControlMessage("start") {
      StartReportsNothing(s, apiUp);
    } else {
      assert t.androidQueue == s.androidQueue;
    }
  }

  // ---------------------------------------------------------------------------
  // recv_stm: one line from the controller

  /** The stripped line is an acknowledgment. */
  predicate IsAck(line: string) {
    StartsWith(Strip(line), "ACK")
  }

  /** The acknowledgment that releases the movement lock: any after the first, while the lock is held. */
  predicate ReleasesLock(s: PiState, line: string) {
    IsAck(line) && s.rsFlag && s.movementLocked
  }

  /**
   * The body of recv_stm for one line. Releasing an unheld lock raises, and
   * the handler around the whole body swallows it, so nothing else happens;
   * an empty path queue raises Empty after the lock is already released.
   */
  function RecvStmStep(s: PiState, line: string): PiState {
    if !IsAck(line) then s
    else if !s.rsFlag then s.(rsFlag := true)
    else if !s.movementLocked then s
    else if s.pathQueue == [] then s.(movementLocked := false)
    else
      var location := s.pathQueue[0];
      s.(movementLocked := false, pathQueue := s.pathQueue[1..], currentLocation := Some(location),
         androidQueue := s.androidQueue + [LocationUpdate(location)])
  }

  /**
   * What one controller line does: only a stripped "ACK..." line changes
   * anything; the first one only sets `rsFlag`; a later one while the lock is
   * held releases it and, when a location is expected, moves exactly the head
   * of `pathQueue` into `currentLocation` and one location message; nothing
   * else is ever touched.
   */
  lemma RecvStmEffects(s: PiState, line: string)
    ensures var t := RecvStmStep(s, line);
      && (!IsAck(line) ==> t == s)
      && (IsAck(line) && !s.rsFlag ==> t == s.(rsFlag := true))
      && t.rsFlag == (s.rsFlag || IsAck(line))
      && (IsAck(line) && s.rsFlag && !s.movementLocked ==> t == s)
      && (ReleasesLock(s, line) && s.pathQueue == [] ==> t == s.(movementLocked := false))
      && (t.movementLocked != s.movementLocked <==> ReleasesLock(s, line))
      && (ReleasesLock(s, line) && s.pathQueue != [] ==>
            && t.pathQueue == s.pathQueue[1..]
            && t.currentLocation == Some(s.pathQueue[0])
            && t.androidQueue == s.androidQueue + [LocationUpdate(s.pathQueue[0])])
      && (!(ReleasesLock(s, line) && s.pathQueue != []) ==>
            t.pathQueue == s.pathQueue && t.currentLocation == s.currentLocation && t.androidQueue == s.androidQueue)
      && t.(movementLocked := s.movementLocked, rsFlag := s.rsFlag, pathQueue := s.pathQueue,
            currentLocation := s.currentLocation, androidQueue := s.androidQueue) == s
  {
  }

  /**
   * Locations leave `pathQueue` for the app in order and are never lost or
   * invented: the locations reported followed by the ones still expected are
   * the same before and after. The current location stays the last one reported.
   */
  lemma RecvStmKeepsLocationOrder(s: PiState, line: string)
    ensures var t := RecvStmStep(s, line);
      && Reported(t.androidQueue) + t.pathQueue == Reported(s.androidQueue) + s.pathQueue
      && (s.currentLocation == LastReported(s.androidQueue) ==> t.currentLocation == LastReported(t.androidQueue))
      && t.obstacles == s.obstacles && t.unpause == s.unpause
  {
    var t := RecvStmStep(s, line);
    if ReleasesLock(s, line) && s.pathQueue != [] {
      var q := t.androidQueue;
      assert q[..|q| - 1] == s.androidQueue;
      assert s.pathQueue == [s.pathQueue[0]] + s.pathQueue[1..];
    }
  }

  // ---------------------------------------------------------------------------
  // command_follower: take a command, then wait for the gate and the lock

  /** `command = self.command_queue.get()`: enabled when the follower holds nothing and a command is queued. */
  function FollowerTakeStep(s: PiState): PiState {
    if s.takenCommand.None? && s.commandQueue != [] then
      s.(takenCommand := Some(s.commandQueue[0]), commandQueue := s.commandQueue[1..])
    else s
  }

  /** The follower gets past `unpause.wait()` and `movement_lock.acquire()`. */
  predicate FollowerProceeds(s: PiState) {
    s.takenCommand.Some? && s.unpause && !s.movementLocked
  }

  /** The rest of the loop body: acquire the lock, forward `(command, 0, 0, 0)` if it is a controller command. */
  function FollowerForwardStep(s: PiState): PiState {
    if !FollowerProceeds(s) then s
    else
      var command := s.takenCommand.value;
      s.(movementLocked := true, takenCommand := None,
         link := if IsStm32Command(command) then EnqueueStep(s.link, StateCommand(command, 0, 0, 0)) else s.link)
  }

  /**
   * The follower always takes the lock when it proceeds, and queues exactly
   * `(command, 0, 0, 0)` on the serial queue iff the command is a controller
   * command; it never releases the lock and never sends a frame itself.
   */
  lemma FollowerForwards(s: PiState)
    ensures var t := FollowerForwardStep(s);
      && (FollowerProceeds(s) ==> t.movementLocked && t.takenCommand.None?)
      && (FollowerProceeds(s) && IsStm32Command(s.takenCommand.value) ==>
            t.link.queue == s.link.queue + [StateCommand(s.takenCommand.value, 0, 0, 0)])
      && (!(FollowerProceeds(s) && IsStm32Command(s.takenCommand.value)) ==> t.link == s.link)
      && (!FollowerProceeds(s) ==> t == s)
      && (FollowerProceeds(s) ==> t == s.(movementLocked := true, takenCommand := None, link := t.link))
      && t.link.wire == s.link.wire
      && (s.movementLocked ==> t.movementLocked)
  {
  }

  /**
   * Because the follower takes a command off the queue before it waits for
   * the gate, "start" sent while it holds the only queued command finds the
   * queue empty: the app gets an error and the gate stays closed.
   */
  lemma StartMissesTakenCommand(s: PiState, c: string)
    requires s.commandQueue == [c] && s.takenCommand.None? && !s.unpause
    ensures var t := RecvAndroidStep(FollowerTakeStep(s), ControlMessage("start"), true);
      && t.takenCommand == Some(c) && t.commandQueue == []
      && !t.unpause
      && t.androidQueue == s.androidQueue + [Error(EmptyQueueText)]
      && !FollowerProceeds(t)
  {
  }

  // ---------------------------------------------------------------------------
  // rpi_action: one action

  /** The body of rpi_action: take the next action and dispatch it by kind. */
  function RpiActionStep(s: PiState): PiState {
    if s.rpiActionQueue == [] then s
    else
      var rest := s.rpiActionQueue[1..];
      match s.rpiActionQueue[0]
      case ObstaclesAction(obs) =>
        s.(rpiActionQueue := rest, obstacles := MergeObstacles(s.obstacles, obs),
           externalCalls := s.externalCalls + [RequestAlgo(obs)])
      case SnapAction(signal) =>
        s.(rpiActionQueue := rest, externalCalls := s.externalCalls + [SnapAndRec(signal)])
      case StitchAction =>
        s.(rpiActionQueue := rest, externalCalls := s.externalCalls + [RequestStitch])
  }

  /**
   * An obstacles action leaves the map holding the old keys plus the incoming
   * ids, each incoming id mapped to its last occurrence and every other key
   * untouched, and then asks the planner for a path.
   */
  lemma ObstaclesActionMerges(s: PiState, obs: seq<Obstacle>)
    requires s.rpiActionQueue != [] && s.rpiActionQueue[0] == ObstaclesAction(obs)
    ensures var t := RpiActionStep(s);
      && t.obstacles.Keys == s.obstacles.Keys + IdsOf(obs)
      && (forall i :: 0 <= i < |obs| && LastWithItsId(obs, i) ==> t.obstacles[obs[i].id] == obs[i])
      && (forall k :: k in s.obstacles && k !in IdsOf(obs) ==> t.obstacles[k] == s.obstacles[k])
      && t.externalCalls == s.externalCalls + [RequestAlgo(obs)]
      && t.rpiActionQueue == s.rpiActionQueue[1..]
  {
  }

  /** Setting one id twice keeps one entry for it, holding the later obstacle. */
  lemma LaterObstacleWins(m: map<int, Obstacle>, a: Obstacle, b: Obstacle)
    requires a.id == b.id
    ensures var r := MergeObstacles(m, [a, b]);
      r.Keys == m.Keys + {b.id} && r[b.id] == b
  {
    var obs := [a, b];
    assert IdsOf(obs) == {b.id} by {
      assert obs[0] == a && obs[1] == b;
    }
    assert LastWithItsId(obs, 1);
  }

  // ---------------------------------------------------------------------------
  // The orchestrator object

  class RaspberryPi {
    var unpause: bool
    var movementLocked: bool
    var androidQueue: seq<AndroidMessage>
    var rpiActionQueue: seq<PiAction>
    var commandQueue: seq<string>
    var pathQueue: seq<Location>
    var rsFlag: bool
    var obstacles: map<int, Obstacle>
    var currentLocation: Option<Location>
    var takenCommand: Option<string>
    var externalCalls: seq<ExternalCall>
    /** The serial link shared with usb_interface_upd. */
    const link: Link

    function State(): PiState
      reads this, link
    {
      PiState(unpause, movementLocked, androidQueue, rpiActionQueue, commandQueue, pathQueue,
              rsFlag, obstacles, currentLocation, takenCommand, externalCalls, link.State())
    }

    /** __init__: the gate closed, the lock free, every queue and dictionary empty. */
    constructor (link: Link)
      ensures this.link == link
      ensures State() == InitialState(link.State())
    {
      this.link := link;
      unpause, movementLocked, rsFlag := false, false, false;
      androidQueue, rpiActionQueue, commandQueue, pathQueue := [], [], [], [];
      obstacles, currentLocation, takenCommand, externalCalls := map[], None, None, [];
    }

    /** One iteration of recv_android on a parsed message; `apiUp` stands for check_api(). */
    method RecvAndroid(msg: AppMessage, apiUp: bool)
      modifies this, link
      ensures State() == RecvAndroidStep(old(State()), msg, apiUp)
    {
      match msg
      case ObstaclesMessage(obs) =>
        rpiActionQueue := rpiActionQueue + [ObstaclesAction(obs)];
      case ControlMessage(value) =>
        if value == "start" {
          if !apiUp {
            androidQueue := androidQueue + [Error(ApiDownText)];
          }
          if commandQueue != [] {
            link.QueueStateTransition(ResetCommand);
            unpause := true;
            androidQueue := androidQueue + [Info(StartingText)];
            androidQueue := androidQueue + [Status(RunningText)];
          } else {
            androidQueue := androidQueue + [Error(EmptyQueueText)];
          }
        }
      case OtherMessage(_) =>
    }

    /** One iteration of recv_stm on one line read from the controller. */
    method RecvStm(line: string)
      modifies this
      ensures State() == RecvStmStep(old(State()), line)
    {
      var message := Strip(line);
      if StartsWith(message, "ACK") {
        if !rsFlag {
          rsFlag := true;
          return;
        }
        if movementLocked {
          movementLocked := false;
          if pathQueue != [] {
            var location := pathQueue[0];
            pathQueue := pathQueue[1..];
            currentLocation := Some(location);
            androidQueue := androidQueue + [LocationUpdate(location)];
          }
        }
      }
    }

    /** command_follower, first part: take the next command off the queue. */
    method CommandFollowerTake()
      modifies this
      ensures State() == FollowerTakeStep(old(State()))
    {
      if takenCommand.None? && commandQueue != [] {
        takenCommand := Some(commandQueue[0]);
        commandQueue := commandQueue[1..];
      }
    }

    /** command_follower, second part: wait for the gate, acquire the lock, forward the command. */
    method CommandFollowerForward()
      modifies this, link
      ensures State() == FollowerForwardStep(old(State()))
    {
      if takenCommand.Some? && unpause && !movementLocked {
        var command := takenCommand.value;
        movementLocked := true;
        if StartsWithAny(command, Stm32Prefixes) {
          link.QueueStateTransition(StateCommand(command, 0, 0, 0));
        }
        takenCommand := None;
      }
    }

    /** The merge loop of rpi_action: each obstacle is stored under its id, in order. */
    method StoreObstacles(obs: seq<Obstacle>)
      modifies this`obstacles
      ensures obstacles == MergeObstacles(old(obstacles), obs)
    {
      var i := 0;
      while i < |obs|
        invariant 0 <= i <= |obs|
        invariant obstacles == MergeObstacles(old(obstacles), obs[..i])
      {
        assert obs[..i + 1][..i] == obs[..i];
        obstacles := obstacles[obs[i].id := obs[i]];
        i := i + 1;
      }
      assert obs[..i] == obs;
    }

    /** One iteration of rpi_action. */
    method RpiAction()
      modifies this
      ensures State() == RpiActionStep(old(State()))
    {
      if rpiActionQueue == [] {
        return;
      }
      var action := rpiActionQueue[0];
      rpiActionQueue := rpiActionQueue[1..];
      match action
      case ObstaclesAction(obs) =>
        StoreObstacles(obs);
        externalCalls := externalCalls + [RequestAlgo(obs)];
      case SnapAction(signal) =>
        externalCalls := externalCalls + [SnapAndRec(signal)];
      case StitchAction =>
        externalCalls := externalCalls + [RequestStitch];
    }
  }
}
