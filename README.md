# Robot orchestrator: serial flow control and worker step handlers

This project models the sequential core of a Raspberry Pi robot orchestrator in Dafny:

- **Controller link** (`usb_interface_upd.py`, modelled in `ControllerLink.dfy`, with the Python string builtins it relies on in `Text.dfy`). A state transition `(state, motor_speed, param, scale)` is written to the motor controller as `"<state> <speed> <param> <scale>"`, left-justified to 30 characters. Transitions wait in a FIFO (`state_queue`). The receive loop reads one line at a time and strips it. On `"0"` (the previous state completed) it pops the head of the queue and sends it, if there is one. On `"1"` it does nothing. Any other line goes to a handler that only reports it. The port becomes an append-only log of written frames (`wire`), and inbound lines become inputs.
- **Orchestrator workers** (`week8modded.py`, modelled in `Orchestrator.dfy`). There is one pure step function per worker loop body over a `PiState` record holding the `RaspberryPi` fields. The `RaspberryPi` class runs the same bodies imperatively and is proved equal to the step functions. The bodies are:
  - the acknowledgment reader `recv_stm`: a two-state machine on `rs_flag`, the lock release, the `path_queue` pop, and the location report;
  - the command follower: take a command, wait for `unpause`, acquire the movement lock, and forward `(command, 0, 0, 0)` when the command has a controller prefix;
  - app-message ingestion `recv_android`: `obstacles` and `control`/`start`;
  - the action worker `rpi_action`: a last-write-wins obstacle map, plus recorded calls to the path planner and the other collaborators.
- **The composed system** (`Pipeline.dfy`). Any interleaving of those steps, of controller lines, and of the planner delivering commands with their expected locations. Over every run:
  - the movement lock admits at most one command that has been forwarded and not yet acknowledged;
  - locations reach the app in the order they were planned;
  - the current location is always the last one reported;
  - the obstacle map stays keyed by id;
  - the start gate, once open, stays open.

A blocking call (`Queue.get`, `Lock.acquire`, `Event.wait`) is modelled as a step that is not enabled: the step leaves the state unchanged until the call could return.

Three behaviours of the code as written that are easy to misread:

- A frame is `max(30, |message|)` characters long, not always 30, because `ljust` never truncates.
- A failed API check on `start` queues the error "API is down, start command aborted." (week8modded.py:183), but no `return` follows it: the handler carries on into the command-queue test.
- The follower takes a command off `command_queue` *before* it waits for `unpause`. So a `start` that arrives while the follower holds the only queued command finds the queue empty: the app gets an error and the gate stays closed (`StartMissesTakenCommand`).

## Model

| member | source | states |
|---|---|---|
| Text.Strip | usb_interface_upd.py:43 | defines strip() as rstrip of lstrip over Python's whitespace set; its properties are the three lemmas below |
| Text.StripIsSlice | usb_interface_upd.py:43 | what strip() keeps is a contiguous slice of the line with only whitespace cut on either side |
| Text.StartsWith | week8modded.py:210 | defines str.startswith: the prefix is no longer than the string and equals its head |
| Text.StripPadded | usb_interface_upd.py:43 | strip() removes exactly the whitespace around a string with no leading or trailing whitespace, whatever that whitespace is |
| Text.LStripSpec | usb_interface_upd.py:43 | the result is the suffix of the input after its leading whitespace: everything cut is whitespace and the result does not start with whitespace |
| Text.RStripSpec | usb_interface_upd.py:43 | the result is the prefix of the input before its trailing whitespace: everything cut is whitespace and the result does not end with whitespace |
| Text.StripIsClean | usb_interface_upd.py:43 | the stripped line neither starts nor ends with whitespace |
| Text.LJust | usb_interface_upd.py:64 | ljust pads with spaces to the width and never truncates: the length is max(width, input length), the input is a prefix, and every added character is a space |
| Text.IntToDecimal | usb_interface_upd.py:62 | str(int) is non-empty and holds no whitespace, so it cannot merge with the separating spaces |
| Text.IntRoundTrip | usb_interface_upd.py:62 | int(str(i)) == i for every integer, negative ones included |
| ControllerLink.Message | usb_interface_upd.py:62 | defines the f-string: the four fields in order, joined by single spaces; MessageFields states how it splits back |
| ControllerLink.Frame | usb_interface_upd.py:62-64 | defines the written frame as the message left-justified to 30 characters; FrameLayout states its layout |
| ControllerLink.FrameLayout | usb_interface_upd.py:61-64 | the frame is the message followed only by spaces, of length max(30, message length) |
| ControllerLink.MessageFields | usb_interface_upd.py:62 | the unpadded message splits at single spaces into exactly state, speed, param and scale, in that order |
| ControllerLink.StripFrame | usb_interface_upd.py:64-68 | stripping the padded frame gives back the message whenever the message has no leading or trailing whitespace |
| ControllerLink.FrameRoundTrip | usb_interface_upd.py:61-66 | reading a frame back (strip, split, parse) gives exactly the transition it was built from, for any whitespace-free state code |
| ControllerLink.Classify | usb_interface_upd.py:43-55 | defines the three outcomes of the stripped line: "0", "1", or anything else handed to the reporting handler |
| ControllerLink.EnqueueStep | usb_interface_upd.py:70-71 | defines queue_state_transition on the link as a value: the transition goes at the tail and nothing is written |
| ControllerLink.ReceiveStep | usb_interface_upd.py:45-55 | defines one receive pass as a value; ReceiveSendsHead states its effect |
| ControllerLink.ClassifyIgnoresWhitespace | usb_interface_upd.py:43-55 | lines are classified after strip(), so whitespace around "0", "1" or any other text never changes the outcome |
| ControllerLink.ReceiveSendsHead | usb_interface_upd.py:45-55 | a receive pass sends one frame, built from the head, and leaves the tail queued iff the line reads "0" and the queue is non-empty; otherwise nothing changes; frames written followed by frames pending are preserved |
| ControllerLink.LinkRunFifo | usb_interface_upd.py:40-71 | over any interleaving of enqueues and lines, the queue is a suffix of everything queued and the wire holds the frames of exactly the part before it, in order, with no more frames than "0" lines |
| ControllerLink.SentInQueueOrder | usb_interface_upd.py:40-71 | from an empty link, the frames sent are those of the first transitions queued, in FIFO order, and at most one per "0" line |
| ControllerLink.Link.constructor | usb_interface_upd.py:36 | the link starts with an empty queue and nothing written |
| ControllerLink.Link.SendMessage | usb_interface_upd.py:61-68 | send_message writes exactly one frame, that of the transition, and leaves the queue alone |
| ControllerLink.Link.QueueStateTransition | usb_interface_upd.py:70-71 | queue_state_transition appends exactly one transition at the tail, keeps earlier entries, and sends nothing |
| ControllerLink.Link.ReceiveLine | usb_interface_upd.py:41-59 | one loop iteration changes the link exactly as the receive step on that line does |
| ControllerLink.Link.ReceiveThread | usb_interface_upd.py:40-55 | the receive loop over the lines that arrive before the stop signal leaves the link as the run of those lines does |
| Orchestrator.InitialState | week8modded.py:18-50 | defines the state __init__ builds: gate closed, lock free, rs_flag false, queues and dictionaries empty |
| Orchestrator.IsStm32Command | week8modded.py:275-277 | defines the forwarding test as startswith over the 16 controller prefixes; Stm32CommandsAre states which commands pass |
| Orchestrator.StartsWithAny | week8modded.py:277 | startswith with a tuple holds iff the command starts with at least one of the prefixes |
| Orchestrator.Stm32CommandsAre | week8modded.py:275-277 | a command is forwarded iff it starts with "A", "C", "STOP" or one of the two-letter codes FS BS FW BW FL FR BL BR TL TR DT ZZ RS |
| Orchestrator.SnapNotForwarded | week8modded.py:35-36 | commands starting with "SNAP" (a format assumed for the snap commands that share the command queue) never match a controller prefix |
| Orchestrator.MergeObstacles | week8modded.py:290-291 | the merged map's keys are the old keys plus the incoming ids; each incoming id maps to its last occurrence; other keys keep their entries; entries stay keyed by their id |
| Orchestrator.MergeOneMore | week8modded.py:290-291 | storing one more obstacle under its id keeps the merge properties over the longer sequence |
| Orchestrator.RecvAndroidStep | week8modded.py:156-201 | defines the recv_android body for one parsed message as a value; the four lemmas below state its effect |
| Orchestrator.ObstaclesMessageQueuesAction | week8modded.py:170-173 | an obstacles message appends exactly one action carrying the obstacles and changes nothing else |
| Orchestrator.StartOutcome | week8modded.py:176-201 | start opens the gate iff commands are queued. Then it queues the RS00 reset and emits info then status "running". Otherwise it emits one error and queues nothing. A failed API check adds one error first and does not stop either branch. Nothing but the gate, the serial queue and the app queue changes |
| Orchestrator.StartReportsNothing | week8modded.py:176-201 | start appends its messages after what the app queue already held, and none of them is a location report |
| Orchestrator.RecvAndroidReportsNothing | week8modded.py:156-201 | an inbound app message never reports a location, never touches the lock or the path queue, and never closes the gate |
| Orchestrator.IsAck | week8modded.py:209-210 | defines an acknowledgment as a line whose stripped form starts with "ACK" |
| Orchestrator.RecvStmStep | week8modded.py:207-238 | defines the recv_stm body for one line as a value; RecvStmEffects and RecvStmKeepsLocationOrder state its effect |
| Orchestrator.RecvStmEffects | week8modded.py:207-238 | only stripped ACK lines change anything. The first only sets rs_flag, which then stays set. A later one with the lock free changes nothing. A later one with the lock held releases it; with a location pending it also moves exactly the head into current_location and one location message, and with none it changes nothing else |
| Orchestrator.RecvStmKeepsLocationOrder | week8modded.py:215-230 | reported locations followed by expected ones are preserved by every controller line, and the current location stays the last one reported |
| Orchestrator.FollowerTakeStep | week8modded.py:261-263 | defines command_queue.get() as the step that moves the head into the follower's hand, enabled only when the follower holds nothing |
| Orchestrator.FollowerForwardStep | week8modded.py:264-278 | defines the wait, the acquire and the prefix-gated forward as one step, enabled only when the gate is open and the lock is free |
| Orchestrator.FollowerForwards | week8modded.py:266-278 | when the follower proceeds it always takes the lock. It queues exactly (command,0,0,0) iff the command has a controller prefix. It never releases the lock and never writes a frame. Nothing but the lock, the follower's hand and the serial queue changes |
| Orchestrator.StartMissesTakenCommand | week8modded.py:186 | a start arriving while the follower holds the only queued command finds the queue empty: one error, the gate stays closed, the follower stays blocked |
| Orchestrator.RpiActionStep | week8modded.py:284-296 | defines one rpi_action iteration as a value: dequeue, then merge and request a path, snap, or stitch by kind |
| Orchestrator.ObstaclesActionMerges | week8modded.py:284-292 | an obstacles action merges last-write-wins by id, leaves other keys untouched, and then requests a path for those obstacles |
| Orchestrator.LaterObstacleWins | week8modded.py:290-291 | setting the same id twice leaves one entry for it holding the later obstacle |
| Orchestrator.RaspberryPi.constructor | week8modded.py:18-50 | the orchestrator starts with the gate closed, the lock free, rs_flag false, and every queue and dictionary empty |
| Orchestrator.RaspberryPi.RecvAndroid | week8modded.py:156-201 | one recv_android iteration changes the fields and the serial queue exactly as the ingestion step does |
| Orchestrator.RaspberryPi.RecvStm | week8modded.py:207-238 | one recv_stm iteration changes the fields exactly as the acknowledgment step does |
| Orchestrator.RaspberryPi.CommandFollowerTake | week8modded.py:261-263 | taking a command moves the head of command_queue into the follower's hand when it holds none |
| Orchestrator.RaspberryPi.CommandFollowerForward | week8modded.py:264-278 | waiting, acquiring and forwarding change the fields and the serial queue exactly as the forward step does |
| Orchestrator.RaspberryPi.StoreObstacles | week8modded.py:290-291 | the in-place loop that stores each obstacle under its id leaves the map equal to the last-write-wins merge |
| Orchestrator.RaspberryPi.RpiAction | week8modded.py:284-296 | one rpi_action iteration changes the fields exactly as the action step does |
| Pipeline.Next | week8modded.py:152-296 | defines one step of the composed system: a worker body, a controller line on the link, or the planner delivering commands and locations |
| Pipeline.LockStep | week8modded.py:216 | only the follower's acquire sets the lock and only a releasing acknowledgment clears it; no step does both |
| Pipeline.LockAccounting | week8modded.py:203-278 | from a free lock, over any interleaving, acquisitions exceed releases by one while the lock is held and by none otherwise; forwards never exceed acquisitions |
| Pipeline.AtMostOneInFlight | week8modded.py:203-278 | at every point of every run at most one command is forwarded and not yet acknowledged |
| Pipeline.StepKeepsInvariant | week8modded.py:152-296 | every worker step keeps the current location equal to the last one reported and the obstacle map keyed by id, preserves reported-then-expected locations, and never closes an open gate |
| Pipeline.KeepsInvariantChains | week8modded.py:152-296 | two stretches that each keep the invariant and the location order compose, with their planned locations concatenated |
| Pipeline.RunKeepsInvariant | week8modded.py:152-296 | over any run the invariant holds, reported-then-expected locations are the old ones followed by everything planned since, and an open gate stays open |
| Pipeline.ReportedInPlanOrder | week8modded.py:215-230 | from a fresh orchestrator, the locations reported to the app are exactly the first ones planned, in plan order |

## Left out

- Process and thread machinery is not modelled: `Manager` proxies, `Process` start, terminate and join, `start`, `stop`, `reconnect_android` and the `android_dropped` event. Its purpose is supervision, not sequential logic, and interleaving is modelled instead by arbitrary event orders in `Pipeline`.
- `android_sender` is not modelled, so `androidQueue` is an append-only outbound log. The 0.5 s polling loop only moves messages to a transport outside this model.
- The `OSError` path of `recv_android` is not modelled. It only sets the event that feeds the reconnection supervisor.
- The model assumes one shared serial queue and one shared `rs_flag`. In the source each child process works on its own copy of the module-level `state_queue` and of `rs_flag`. Importing `usb_interface_upd.py` also starts its demonstration sequence, which blocks at the module-level loop.
- Serial I/O is not modelled: `ser.in_waiting`, `readline`, UTF-8 decoding and its errors, `write`, and `encode`. Lines are inputs and frames are strings. A frame's byte length equals its character length only for ASCII state codes.
- `param` and `scale` are integers. Rendering floats with Python's `str()` is not modelled.
- JSON parsing of the app envelope is not modelled. Messages arrive already parsed. A malformed value, such as an obstacles value without an `obstacles` list or a path entry without x/y/d, would raise in the source and is not representable here.
- `check_api` becomes the boolean input `apiUp`. `request_algo`, `snap_and_rec` and `request_stitch` are recorded as `ExternalCall`s. The commands and locations the planner puts on `command_queue` and `path_queue` arrive as a `PlannerOutput` event. `AndroidLink` and `prepare_logger` are not part of this model.
- The model assumes that `PiAction`, `check_api`, `request_algo`, `snap_and_rec` and `request_stitch` exist. As written, week8modded.py:1-11 does not import `PiAction`, so the `PiAction(**message)` at week8modded.py:171 raises a `NameError` that nothing catches, and `recv_android` ends on its first obstacles message. None of the four methods is defined on `RaspberryPi`.
- Logging is not modelled.
- The exception path of `unpause.wait()` (week8modded.py:266-269) is not modelled. The model treats the wait as a step that is not enabled until the gate is open. In the source, an exception there is logged and the follower goes on to acquire the lock and forward the command without the gate being open.
- The unused fields `success_obstacles`, `failed_obstacles` and `failed_attempt` are not modelled.
- `send_request.py` and `settings.py` are not modelled. They are a one-shot HTTP script and constants.
