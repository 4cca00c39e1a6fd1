/**
 * The serial link to the motor controller: the fixed-width frame a state
 * transition is written as, the FIFO of pending transitions, and one pass of
 * the receive loop that sends the next transition when the controller reports
 * the previous one completed. The serial port becomes an append-only log of
 * the frames written (`wire`) and the lines read become inputs.
 */
module ControllerLink {
  import opened Options
  import opened Text

  /** One state transition: (state, motor_speed, param, scale). */
  datatype StateCommand = StateCommand(state: string, speed: int, param: int, scale: int)

  /** Frames are left-justified to this many characters. */
  const FrameWidth: nat := 30

  /** The unpadded message: the four fields in order, joined by single spaces. */
  function Message(c: StateCommand): string {
    c.state + " " + IntToDecimal(c.speed) + " " + IntToDecimal(c.param) + " " + IntToDecimal(c.scale)
  }

  /** The frame written to the port: the message left-justified to the frame width. */
  function Frame(c: StateCommand): string {
    LJust(Message(c), FrameWidth)
  }

  /** The frame is the message followed by spaces only, as long as the frame width or the message, never truncated. */
  lemma FrameLayout(c: StateCommand)
    ensures var f, m := Frame(c), Message(c);
      && |f| == (if |m| < FrameWidth then FrameWidth else |m|)
      && StartsWith(f, m)
      && AllSpace(f[|m|..])
  {
    var f, m := Frame(c), Message(c);
    assert forall i :: 0 <= i < |f| - |m| ==> f[|m|..][i] == f[|m| + i];
  }

  function Frames(q: seq<StateCommand>): (fs: seq<string>)
    ensures |fs| == |q| && forall i :: 0 <= i < |q| ==> fs[i] == Frame(q[i])
  {
    seq(|q|, i requires 0 <= i < |q| => Frame(q[i]))
  }

  /** A state code the frame can carry without ambiguity: non-empty and free of whitespace. */
  predicate WellFormedState(state: string) {
    state != [] && forall k :: 0 <= k < |state| ==> !IsSpace(state[k])
  }

  /** The reading of a frame the wire format implies: strip, split at spaces, parse the numbers. */
  function ParseFrame(frame: string): Option<StateCommand> {
    var parts := Split(Strip(frame), ' ');
    if |parts| != 4 then None
    else
      match (ParseInt(parts[1]), ParseInt(parts[2]), ParseInt(parts[3]))
      case (Some(speed), Some(param), Some(scale)) => Some(StateCommand(parts[0], speed, param, scale))
      case _ => None
  }

  /** The message splits at its single spaces into exactly the four fields, in order. */
  lemma MessageFields(c: StateCommand)
    requires WellFormedState(c.state)
    ensures Split(Message(c), ' ') == [c.state, IntToDecimal(c.speed), IntToDecimal(c.param), IntToDecimal(c.scale)]
  {
    var sp, pa, sc := IntToDecimal(c.speed), IntToDecimal(c.param), IntToDecimal(c.scale);
    assert ' ' !in c.state;
    assert ' ' !in sp;
    assert ' ' !in pa;
    assert ' ' !in sc;
    assert Message(c) == c.state + [' '] + (sp + [' '] + (pa + [' '] + sc));
    SplitAtSeparator(c.state, ' ', sp + [' '] + (pa + [' '] + sc));
    SplitAtSeparator(sp, ' ', pa + [' '] + sc);
    SplitAtSeparator(pa, ' ', sc);
    SplitNoSeparator(sc, ' ');
  }

  /** Stripping the padded frame gives back the message whenever the message is itself clean. */
  lemma StripFrame(c: StateCommand)
    requires Clean(Message(c))
    ensures Strip(Frame(c)) == Message(c)
  {
    var m, f := Message(c), Frame(c);
    FrameLayout(c);
    assert f == [] + m + f[|m|..];
    StripPadded([], m, f[|m|..]);
  }

  /** Decoding a frame gives back the state transition it was built from. */
  lemma FrameRoundTrip(c: StateCommand)
    requires WellFormedState(c.state)
    ensures ParseFrame(Frame(c)) == Some(c)
  {
    var m := Message(c);
    assert m[0] == c.state[0];
    var sc := IntToDecimal(c.scale);
    assert m[|m| - 1] == sc[|sc| - 1];
    StripFrame(c);
    MessageFields(c);
    IntRoundTrip(c.speed);
    IntRoundTrip(c.param);
    IntRoundTrip(c.scale);
  }

  /** How the receive loop reads one line, after strip(). */
  datatype LineKind =
    | Completed               // "0": the previous state completed
    | Starting                // "1": the current state is starting
    | Unrecognised(text: string)  // anything else, handed to handle_received_message

  function Classify(line: string): LineKind {
    var message := Strip(line);
    if message == "0" then Completed
    else if message == "1" then Starting
    else Unrecognised(message)
  }

  /** Whitespace around a line never changes how it is classified (" 0\r\n" reads as "0"). */
  lemma ClassifyIgnoresWhitespace(w1: string, text: string, w2: string)
    requires AllSpace(w1) && AllSpace(w2) && Clean(text)
    ensures Classify(w1 + text + w2) == Classify(text)
  {
    StripPadded(w1, text, w2);
    StripPadded([], text, []);
    assert [] + text + [] == text;
  }

  /** The link as values: pending transitions (head first) and every frame written so far. */
  datatype LinkState = LinkState(queue: seq<StateCommand>, wire: seq<string>)

  /** queue_state_transition: the transition joins the tail of the queue; nothing is sent. */
  function EnqueueStep(s: LinkState, c: StateCommand): LinkState {
    s.(queue := s.queue + [c])
  }

  /** One pass of the receive loop over one inbound line. */
  function ReceiveStep(s: LinkState, line: string): LinkState {
    match Classify(line)
    case Completed => if s.queue != [] then LinkState(s.queue[1..], s.wire + [Frame(s.queue[0])]) else s
    case Starting => s
    case Unrecognised(_) => s
  }

  /** Moving the head of the queue onto the wire keeps "frames written, then frames pending" as it was. */
  lemma SendHeadKeepsOrder(s: LinkState)
    requires s.queue != []
    ensures var t := LinkState(s.queue[1..], s.wire + [Frame(s.queue[0])]);
      t.wire + Frames(t.queue) == s.wire + Frames(s.queue)
  {
    assert Frames(s.queue) == [Frame(s.queue[0])] + Frames(s.queue[1..]);
  }

  /**
   * A receive pass sends at most one frame: on "0" with transitions pending it
   * writes the frame of the head and the queue becomes its tail; on anything
   * else nothing changes. The frames written followed by the frames pending
   * are the same before and after: what leaves the queue is what goes on the wire.
   */
  lemma ReceiveSendsHead(s: LinkState, line: string)
    ensures var t := ReceiveStep(s, line);
      && t.wire + Frames(t.queue) == s.wire + Frames(s.queue)
      && |t.wire| == |s.wire| + (if Classify(line) == Completed && s.queue != [] then 1 else 0)
      && t.wire[..|s.wire|] == s.wire
      && (Classify(line) == Completed && s.queue != [] ==> t == LinkState(s.queue[1..], s.wire + [Frame(s.queue[0])]))
      && (!(Classify(line) == Completed && s.queue != []) ==> t == s)
  {
    if Classify(line) == Completed && s.queue != [] {
      SendHeadKeepsOrder(s);
    }
  }

  /** Something the link can observe: a producer enqueuing, or a line arriving. */
  datatype LinkEvent = Enqueue(command: StateCommand) | Line(line: string)

  function LinkNext(s: LinkState, e: LinkEvent): LinkState {
    match e
    case Enqueue(c) => EnqueueStep(s, c)
    case Line(line) => ReceiveStep(s, line)
  }

  function LinkRun(s: LinkState, es: seq<LinkEvent>): LinkState
    decreases |es|
  {
    if es == [] then s else LinkNext(LinkRun(s, es[..|es| - 1]), es[|es| - 1])
  }

  /** The transitions enqueued during a run, in order. */
  function Enqueued(es: seq<LinkEvent>): seq<StateCommand>
    decreases |es|
  {
    if es == [] then []
    else Enqueued(es[..|es| - 1]) + (if es[|es| - 1].Enqueue? then [es[|es| - 1].command] else [])
  }

  /** The number of lines in a run that read as "0". */
  function CompletedLines(es: seq<LinkEvent>): nat
    decreases |es|
  {
    if es == [] then 0
    else CompletedLines(es[..|es| - 1]) + (if es[|es| - 1].Line? && Classify(es[|es| - 1].line) == Completed then 1 else 0)
  }

  /**
   * `t` has sent, in order, a prefix of `all` (on top of what `s0` had sent)
   * and still holds the rest of `all` in its queue.
   */
  ghost predicate SentPrefixOf(s0: LinkState, all: seq<StateCommand>, t: LinkState) {
    && |t.queue| <= |all|
    && t.queue == all[|all| - |t.queue|..]
    && t.wire == s0.wire + Frames(all[..|all| - |t.queue|])
  }

  lemma EnqueueKeepsSentPrefix(s0: LinkState, all: seq<StateCommand>, t: LinkState, c: StateCommand)
    requires SentPrefixOf(s0, all, t)
    ensures SentPrefixOf(s0, all + [c], EnqueueStep(t, c))
  {
    var n := |all| - |t.queue|;
    assert (all + [c])[..n] == all[..n];
    assert (all + [c])[n..] == all[n..] + [c];
  }

  lemma SendKeepsSentPrefix(s0: LinkState, all: seq<StateCommand>, t: LinkState)
    requires SentPrefixOf(s0, all, t) && t.queue != []
    ensures SentPrefixOf(s0, all, LinkState(t.queue[1..], t.wire + [Frame(t.queue[0])]))
  {
    var n := |all| - |t.queue|;
    assert all[n + 1..] == t.queue[1..];
    assert all[..n + 1] == all[..n] + [t.queue[0]];
    assert Frames(all[..n + 1]) == Frames(all[..n]) + [Frame(t.queue[0])];
  }

  /**
   * FIFO over any run: the pending queue is always a suffix of everything ever
   * queued, the wire holds the frames of exactly the part before it, in order,
   * and no more frames were sent than "0" lines arrived.
   */
  lemma {:induction false} LinkRunFifo(s: LinkState, es: seq<LinkEvent>)
    ensures SentPrefixOf(s, s.queue + Enqueued(es), LinkRun(s, es))
    ensures |LinkRun(s, es).wire| <= |s.wire| + CompletedLines(es)
    decreases |es|
  {
    if es == [] {
      assert s.queue + [] == s.queue;
    } else {
      var init, e := es[..|es| - 1], es[|es| - 1];
      LinkRunFifo(s, init);
      var p := LinkRun(s, init);
      match e
      case Enqueue(c) =>
        assert LinkRun(s, es) == EnqueueStep(p, c);
        EnqueueKeepsSentPrefix(s, s.queue + Enqueued(init), p, c);
        assert s.queue + Enqueued(init) + [c] == s.queue + Enqueued(es);
      case Line(line) =>
        assert LinkRun(s, es) == ReceiveStep(p, line);
        assert Enqueued(es) == Enqueued(init);
        ReceiveSendsHead(p, line);
        if Classify(line) == Completed && p.queue != [] {
          SendKeepsSentPrefix(s, s.queue + Enqueued(init), p);
        }
    }
  }

  /** From an empty link, the wire is exactly the frames of the first transitions queued, in queue order. */
  lemma SentInQueueOrder(es: seq<LinkEvent>)
    ensures var t := LinkRun(LinkState([], []), es);
      && |t.wire| <= |Enqueued(es)|
      && t.wire == Frames(Enqueued(es)[..|t.wire|])
      && |t.wire| <= CompletedLines(es)
  {
    var t := LinkRun(LinkState([], []), es);
    LinkRunFifo(LinkState([], []), es);
    assert [] + Enqueued(es) == Enqueued(es);
    assert |t.wire| == |Enqueued(es)| - |t.queue|;
  }

  /** The events a receive loop sees when only lines arrive. */
  function Lines(lines: seq<string>): (es: seq<LinkEvent>)
    ensures |es| == |lines| && forall i :: 0 <= i < |lines| ==> es[i] == Line(lines[i])
  {
    seq(|lines|, i requires 0 <= i < |lines| => Line(lines[i]))
  }

  /** The serial link: the module-level `state_queue` and the port it writes to. */
  class Link {
    var stateQueue: seq<StateCommand>
    var wire: seq<string>

    function State(): LinkState
      reads this
    {
      LinkState(stateQueue, wire)
    }

    constructor ()
      ensures State() == LinkState([], [])
    {
      stateQueue := [];
      wire := [];
    }

    /** send_message: build the frame and write it; the queue is not touched. */
    method SendMessage(c: StateCommand)
      modifies this
      ensures wire == old(wire) + [Frame(c)]
      ensures stateQueue == old(stateQueue)
    {
      var message := Message(c);
      var padded := LJust(message, FrameWidth);
      wire := wire + [padded];
    }

    /** queue_state_transition: put the transition on the queue. */
    method QueueStateTransition(c: StateCommand)
      modifies this
      ensures State() == EnqueueStep(old(State()), c)
    {
      stateQueue := stateQueue + [c];
    }

    /** One iteration of receive_thread on one line read from the port. */
    method ReceiveLine(line: string)
      modifies this
      ensures State() == ReceiveStep(old(State()), line)
    {
      var message := Strip(line);
      if message == "0" {
        if stateQueue != [] {
          var next := stateQueue[0];
          stateQueue := stateQueue[1..];
          SendMessage(next);
        }
      } else if message == "1" {
        // the current state is starting: informational only
      } else {
        // handle_received_message only reports the line
      }
    }

    /** receive_thread: the lines that arrive before the stop signal, one pass each. */
    method ReceiveThread(lines: seq<string>)
      modifies this
      ensures State() == LinkRun(old(State()), Lines(lines))
    {
      var i := 0;
      while i < |lines|
        invariant 0 <= i <= |lines|
        invariant State() == LinkRun(old(State()), Lines(lines[..i]))
      {
        assert Lines(lines[..i + 1])[..i] == Lines(lines[..i]);
        ReceiveLine(lines[i]);
        i := i + 1;
      }
      assert lines[..i] == lines;
    }
  }
}
