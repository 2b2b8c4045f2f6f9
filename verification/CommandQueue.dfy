/**
 The request ring, the emergency stop and the main loop of main.cpp as a state machine: every step of the main loop that
 an interrupt can separate from the next, and the USB interrupt.
 */
module CommandQueue {
  import opened Arithmetic

  const REQUEST_QUEUE_SIZE := 15
  const EMERGENCY_STOP_NOW := 1
  const NO_EMERGENCY_STOP := 0

  datatype Command = Command(code: int)

  /** One command of a USB packet: a valid M0, M1 or M112, or anything else. */
  datatype Item = Stop | Request(command: Command)

  datatype Slot = Slot(isParsed: bool, command: Command)

  /** Where the main loop is: before the named action. */
  datatype Phase =
    | Poll        // is a request ready, or has a stop reached the processing index
    | Recheck     // has a stop reached the processing index
    | Dispatch    // is no stop pending
    | Execute     // the command runs
    | Respond     // is no stop pending
    | Sending     // send the response
    | Retire      // clear the slot
    | Advance     // increment the processing index
    | Resetting   // reset the peripherals and accept USB data again
    | Confirming  // send the confirmation

  datatype Event =
    | Accepted(command: Command)
    | Dropped(command: Command)
    | StopSeen
    | Started(command: Command)
    | Responded(command: Command)
    | Retired(command: Command)
    | PeripheralsReset
    | Confirmed

  datatype State = State(slots: seq<Slot>, processing: nat, receiving: nat, stop: nat, usb: bool, phase: Phase,
                         log: seq<Event>) {
    predicate Shaped() {
      |slots| == REQUEST_QUEUE_SIZE && processing < REQUEST_QUEUE_SIZE && receiving < REQUEST_QUEUE_SIZE
    }
  }

  function Next(i: nat): nat {
    if i == REQUEST_QUEUE_SIZE - 1 then 0 else i + 1
  }

  function NumberParsed(slots: seq<Slot>): nat {
    if slots == [] then 0 else NumberParsed(slots[..|slots| - 1]) + if slots[|slots| - 1].isParsed then 1 else 0
  }

  // ---- The USB interrupt

  /** One command of a packet. */
  function Receive(s: State, item: Item): (t: State)
    requires s.Shaped()
    ensures t.Shaped()
  {
    match item
    case Stop =>
      s.(usb := false, stop := EMERGENCY_STOP_NOW + NumberParsed(s.slots), log := s.log + [StopSeen])
    case Request(c) =>
      if !s.slots[s.receiving].isParsed
      then s.(slots := s.slots[s.receiving := Slot(true, c)], receiving := Next(s.receiving),
              log := s.log + [Accepted(c)])
      else s.(log := s.log + [Dropped(c)])
  }

  /** `cdcRxNotifyCallback` for a complete packet. */
  function Interrupt(s: State, packet: seq<Item>): (t: State)
    requires s.Shaped()
    ensures t.Shaped()
  {
    if packet == [] then s else Receive(Interrupt(s, packet[..|packet| - 1]), packet[|packet| - 1])
  }

  // ---- The main loop

  function MainStep(s: State): (t: State)
    requires s.Shaped()
    ensures t.Shaped()
  {
    var slot := s.slots[s.processing];
    match s.phase
    case Poll => if slot.isParsed || s.stop == EMERGENCY_STOP_NOW then s.(phase := Recheck) else s
    case Recheck => if s.stop != EMERGENCY_STOP_NOW then s.(phase := Dispatch) else s.(phase := Resetting)
    case Dispatch =>
      if s.stop == 0 then s.(phase := Execute, log := s.log + [Started(slot.command)]) else s.(phase := Retire)
    case Execute => s.(phase := Respond)
    case Respond => s.(phase := if s.stop == 0 then Sending else Retire)
    case Sending => s.(phase := Retire, log := s.log + [Responded(slot.command)])
    case Retire =>
      var cleared := s.(slots := s.slots[s.processing := slot.(isParsed := false)], phase := Advance,
                        log := s.log + [Retired(slot.command)]);
      if s.stop == 0 then cleared.(usb := true) else cleared.(usb := false, stop := s.stop - 1)
    case Advance => s.(processing := Next(s.processing), phase := Poll)
    case Resetting => s.(stop := NO_EMERGENCY_STOP, usb := true, phase := Confirming, log := s.log + [PeripheralsReset])
    case Confirming => s.(phase := Poll, log := s.log + [Confirmed])
  }

  /** One step of the machine: the main loop, or an interrupt while USB interrupts are enabled. */
  ghost predicate Steps(s: State, t: State)
    requires s.Shaped()
  {
    t == MainStep(s) || (s.usb && exists packet :: t == Interrupt(s, packet))
  }

  function Initial(c: Command): (s: State)
    ensures s.Shaped()
  {
    State(seq(REQUEST_QUEUE_SIZE, _ => Slot(false, c)), 0, 0, NO_EMERGENCY_STOP, true, Poll, [])
  }

  // ---- The ring as a queue

  /**
   The slot of the oldest command; while the main loop is about to advance, it is the one after the processing index.
   */
  function Head(s: State): nat {
    if s.phase == Advance then Next(s.processing) else s.processing
  }

  /** The slots from index `head` on, once around. */
  function Rotated(slots: seq<Slot>, head: nat): seq<Slot>
    requires head <= |slots|
  {
    slots[head..] + slots[..head]
  }

  /** The occupied slots are one circular run from the head to the receiving index, and hold `q` in order. */
  ghost predicate Represents(s: State, q: seq<Command>)
    requires s.Shaped()
  {
    var r := Rotated(s.slots, Head(s));
    && |q| <= REQUEST_QUEUE_SIZE
    && s.receiving == (if Head(s) + |q| < REQUEST_QUEUE_SIZE then Head(s) + |q| else Head(s) + |q| - REQUEST_QUEUE_SIZE)
    && (forall j :: 0 <= j < |q| ==> r[j] == Slot(true, q[j]))
    && (forall j :: |q| <= j < REQUEST_QUEUE_SIZE ==> !r[j].isParsed)
  }

  lemma {:induction false} CountSplits(a: seq<Slot>, b: seq<Slot>)
    ensures NumberParsed(a + b) == NumberParsed(a) + NumberParsed(b)
    decreases |b|
  {
    if b == [] {
      assert a + b == a;
    } else {
      CountSplits(a, b[..|b| - 1]);
      assert (a + b)[..|a + b| - 1] == a + b[..|b| - 1];
    }
  }

  lemma {:induction false} CountRun(r: seq<Slot>, n: nat)
    requires n <= |r| && forall j :: 0 <= j < |r| ==> (r[j].isParsed <==> j < n)
    ensures NumberParsed(r) == n
    decreases |r|
  {
    if r != [] {
      CountRun(r[..|r| - 1], if n == |r| then n - 1 else n);
    }
  }

  /** The number of parsed requests is the length of the queue. */
  lemma CountIsLength(s: State, q: seq<Command>)
    requires s.Shaped() && Represents(s, q)
    ensures NumberParsed(s.slots) == |q|
  {
    var h := Head(s);
    CountSplits(s.slots[..h], s.slots[h..]);
    CountSplits(s.slots[h..], s.slots[..h]);
    assert s.slots == s.slots[..h] + s.slots[h..];
    CountRun(Rotated(s.slots, h), |q|);
  }

  /** The ring holds one queue and no other. */
  lemma OneQueue(s: State, p: seq<Command>, q: seq<Command>)
    requires s.Shaped() && Represents(s, p) && Represents(s, q)
    ensures p == q
  {
    CountIsLength(s, p);
    CountIsLength(s, q);
    var r := Rotated(s.slots, Head(s));
    assert forall j :: 0 <= j < |q| ==> r[j] == Slot(true, q[j]);
  }

  // ---- What the log says

  /** Accepted commands, in order. */
  function Accepts(log: seq<Event>): seq<Command> {
    if log == [] then []
    else Accepts(log[..|log| - 1]) + if log[|log| - 1].Accepted? then [log[|log| - 1].command] else []
  }

  /** Commands taken out of the ring, in order. */
  function Retires(log: seq<Event>): seq<Command> {
    if log == [] then []
    else Retires(log[..|log| - 1]) + if log[|log| - 1].Retired? then [log[|log| - 1].command] else []
  }

  /** What was accepted is what was taken out, followed by `q`. */
  predicate Balanced(log: seq<Event>, q: seq<Command>) {
    Accepts(log) == Retires(log) + q
  }

  lemma Logged(log: seq<Event>, q: seq<Command>, e: Event)
    requires Balanced(log, q)
    ensures e.Accepted? ==> Balanced(log + [e], q + [e.command])
    ensures e.Retired? && q != [] && q[0] == e.command ==> Balanced(log + [e], q[1..])
    ensures !e.Accepted? && !e.Retired? ==> Balanced(log + [e], q)
  {
    assert (log + [e])[..|log + [e]| - 1] == log;
    if e.Retired? && q != [] {
      assert q == [q[0]] + q[1..];
    }
  }

  // ---- The invariant

  /** How the phase, the stop countdown and the USB interrupts go together, for a queue of length `n`. */
  predicate Control(s: State, n: nat) {
    && s.stop <= n + 1
    && (s.stop == 0 <==> s.usb)
    && (s.phase in {Dispatch, Execute, Respond, Sending, Retire} ==> n >= 1 && s.stop != EMERGENCY_STOP_NOW)
    && (s.phase == Recheck ==> n >= 1 || s.stop == EMERGENCY_STOP_NOW)
    && (s.phase == Resetting ==> s.stop == EMERGENCY_STOP_NOW)
  }

  /** The ring holds the queue `q`, which is what was accepted and not yet taken out. */
  ghost predicate Inv(s: State, q: seq<Command>) {
    s.Shaped() && Represents(s, q) && Control(s, |q|) && Balanced(s.log, q)
  }

  lemma InitialInv(c: Command)
    ensures Inv(Initial(c), [])
  {
  }

  /** A command is stored behind the others, or dropped because every slot is occupied. */
  function Stored(q: seq<Command>, item: Item): seq<Command> {
    if item.Request? && |q| < REQUEST_QUEUE_SIZE then q + [item.command] else q
  }

  /** The receiving slot is free exactly when some slot is. */
  lemma FullExactlyWhenParsed(s: State, q: seq<Command>)
    requires s.Shaped() && Represents(s, q)
    ensures s.slots[s.receiving].isParsed <==> |q| == REQUEST_QUEUE_SIZE
    ensures s.slots[s.receiving].isParsed <==> forall i :: 0 <= i < REQUEST_QUEUE_SIZE ==> s.slots[i].isParsed
  {
    var h := Head(s);
    var r := Rotated(s.slots, h);
    if |q| < REQUEST_QUEUE_SIZE {
      assert r[|q|] == s.slots[s.receiving];
    } else {
      forall i | 0 <= i < REQUEST_QUEUE_SIZE ensures s.slots[i].isParsed {
        assert s.slots[i] == r[if i >= h then i - h else i + REQUEST_QUEUE_SIZE - h];
      }
    }
  }

  lemma StoreKeepsRun(s: State, q: seq<Command>, c: Command)
    requires s.Shaped() && Represents(s, q) && |q| < REQUEST_QUEUE_SIZE
    ensures Represents(s.(slots := s.slots[s.receiving := Slot(true, c)], receiving := Next(s.receiving)), q + [c])
  {
    var h := Head(s);
    var r := Rotated(s.slots, h);
    var r' := Rotated(s.slots[s.receiving := Slot(true, c)], h);
    assert r' == r[|q| := Slot(true, c)];
  }

  /** The queue depends on the slots, the head and the receiving index only. */
  lemma SameRing(s: State, t: State, q: seq<Command>)
    requires s.Shaped() && t.Shaped() && Represents(s, q)
    requires t.slots == s.slots && t.receiving == s.receiving && Head(t) == Head(s)
    ensures Represents(t, q)
  {
  }

  lemma StopKeeps(s: State, q: seq<Command>)
    requires Inv(s, q) && s.phase != Resetting
    ensures Inv(Receive(s, Stop), q) && Receive(s, Stop).stop == |q| + 1
  {
    CountIsLength(s, q);
    Logged(s.log, q, StopSeen);
    SameRing(s, Receive(s, Stop), q);
  }

  lemma RequestKeeps(s: State, q: seq<Command>, c: Command)
    requires Inv(s, q)
    ensures Inv(Receive(s, Request(c)), Stored(q, Request(c)))
  {
    FullExactlyWhenParsed(s, q);
    if |q| < REQUEST_QUEUE_SIZE {
      var stored := s.(slots := s.slots[s.receiving := Slot(true, c)], receiving := Next(s.receiving));
      StoreKeepsRun(s, q, c);
      Logged(s.log, q, Accepted(c));
      SameRing(stored, Receive(s, Request(c)), q + [c]);
    } else {
      Logged(s.log, q, Dropped(c));
      SameRing(s, Receive(s, Request(c)), q);
    }
  }

  lemma ReceiveKeeps(s: State, q: seq<Command>, item: Item)
    requires Inv(s, q) && s.phase != Resetting
    ensures Inv(Receive(s, item), Stored(q, item))
    ensures Receive(s, item).stop == if item.Stop? then |q| + 1 else s.stop
  {
    match item
    case Stop => StopKeeps(s, q);
    case Request(c) => RequestKeeps(s, q, c);
  }

  /** The queue after a packet. */
  function StoredAll(q: seq<Command>, packet: seq<Item>): seq<Command> {
    if packet == [] then q else Stored(StoredAll(q, packet[..|packet| - 1]), packet[|packet| - 1])
  }

  lemma {:induction false} InterruptKeeps(s: State, q: seq<Command>, packet: seq<Item>)
    requires Inv(s, q) && s.phase != Resetting
    ensures Inv(Interrupt(s, packet), StoredAll(q, packet)) && Interrupt(s, packet).phase == s.phase
    decreases |packet|
  {
    if packet != [] {
      InterruptKeeps(s, q, packet[..|packet| - 1]);
      ReceiveKeeps(Interrupt(s, packet[..|packet| - 1]), StoredAll(q, packet[..|packet| - 1]), packet[|packet| - 1]);
    }
  }

  lemma RetireKeepsRun(s: State, q: seq<Command>)
    requires s.Shaped() && s.phase == Retire && |q| >= 1 && Represents(s, q)
    ensures s.slots[s.processing] == Slot(true, q[0])
    ensures Represents(s.(slots := s.slots[s.processing := s.slots[s.processing].(isParsed := false)],
                          phase := Advance), q[1..])
  {
    var p := s.processing;
    var r := Rotated(s.slots, p);
    var free := s.slots[p].(isParsed := false);
    assert r[0] == s.slots[p];
    var r' := Rotated(s.slots[p := free], Next(p));
    assert r' == r[1..] + [free];
  }

  /** The queue after a step of the main loop: retiring takes the oldest command out. */
  function AfterMainStep(s: State, q: seq<Command>): seq<Command> {
    if s.phase == Retire && q != [] then q[1..] else q
  }

  lemma RetireKeeps(s: State, q: seq<Command>)
    requires Inv(s, q) && s.phase == Retire
    ensures Inv(MainStep(s), q[1..]) && s.slots[s.processing].command == q[0]
  {
    RetireKeepsRun(s, q);
    var cleared := s.(slots := s.slots[s.processing := s.slots[s.processing].(isParsed := false)], phase := Advance);
    SameRing(cleared, MainStep(s), q[1..]);
    Logged(s.log, q, Retired(q[0]));
  }

  lemma OtherPhasesControl(s: State, n: nat)
    requires s.Shaped() && s.phase != Retire && Control(s, n)
             && (s.phase == Poll && s.slots[s.processing].isParsed ==> n >= 1)
    ensures Control(MainStep(s), n)
  {
  }

  lemma OtherPhasesLog(s: State, q: seq<Command>)
    requires s.Shaped() && s.phase != Retire && Balanced(s.log, q)
    ensures Balanced(MainStep(s).log, q)
  {
    var c := s.slots[s.processing].command;
    match s.phase
    case Dispatch => Logged(s.log, q, Started(c));
    case Sending => Logged(s.log, q, Responded(c));
    case Resetting => Logged(s.log, q, PeripheralsReset);
    case Confirming => Logged(s.log, q, Confirmed);
    case _ =>
  }

  /** A parsed slot at the head means that there is a command. */
  lemma HeadParsed(s: State, q: seq<Command>)
    requires s.Shaped() && s.phase == Poll && Represents(s, q) && s.slots[s.processing].isParsed
    ensures q != []
  {
    assert Rotated(s.slots, s.processing)[0] == s.slots[s.processing];
  }

  /** Phases that only decide or report. */
  lemma OtherPhasesKeep(s: State, q: seq<Command>)
    requires Inv(s, q) && s.phase != Retire
    ensures Inv(MainStep(s), q)
  {
    SameRing(s, MainStep(s), q);
    OtherPhasesLog(s, q);
    if s.phase == Poll && s.slots[s.processing].isParsed {
      HeadParsed(s, q);
    }
    OtherPhasesControl(s, |q|);
  }

  lemma MainStepKeeps(s: State, q: seq<Command>)
    requires Inv(s, q)
    ensures Inv(MainStep(s), AfterMainStep(s, q))
  {
    if s.phase == Retire {
      RetireKeeps(s, q);
    } else {
      OtherPhasesKeep(s, q);
    }
  }

  /** The command being decided on, executed, answered or retired is the oldest one. */
  lemma ProcessesOldest(s: State, q: seq<Command>)
    requires Inv(s, q) && s.phase != Advance && q != []
    ensures s.slots[s.processing] == Slot(true, q[0])
  {
    assert Rotated(s.slots, s.processing)[0] == s.slots[s.processing];
  }

  // ---- Every run

  /** Consecutive states of the machine, with interrupts wherever they are enabled. */
  ghost predicate Trace(run: seq<State>) {
    && (forall k :: 0 <= k < |run| ==> run[k].Shaped())
    && (forall k :: 0 < k < |run| ==> Steps(run[k - 1], run[k]))
  }

  lemma StepKeeps(s: State, t: State, q: seq<Command>) returns (p: seq<Command>)
    requires Inv(s, q) && Steps(s, t)
    ensures Inv(t, p)
  {
    if t == MainStep(s) {
      MainStepKeeps(s, q);
      p := AfterMainStep(s, q);
    } else {
      var packet :| t == Interrupt(s, packet);
      InterruptKeeps(s, q, packet);
      p := StoredAll(q, packet);
    }
  }

  lemma {:induction false} InvAlong(run: seq<State>, q: seq<Command>, k: nat) returns (p: seq<Command>)
    requires Trace(run) && k < |run| && Inv(run[0], q)
    ensures Inv(run[k], p)
  {
    if k == 0 {
      p := q;
    } else {
      var o := InvAlong(run, q, k - 1);
      p := StepKeeps(run[k - 1], run[k], o);
    }
  }

  /** In every reachable state the ring is a bounded queue, and commands leave it in the order they were accepted. */
  lemma RunIsQueue(run: seq<State>, c: Command, k: nat) returns (q: seq<Command>)
    requires Trace(run) && k < |run| && run[0] == Initial(c)
    ensures Inv(run[k], q)
    ensures Accepts(run[k].log) == Retires(run[k].log) + q && |q| == NumberParsed(run[k].slots)
  {
    InitialInv(c);
    q := InvAlong(run, [], k);
    CountIsLength(run[k], q);
  }

  // ---- Service

  /**
   A server as a reader of the log sees it: the commands it holds, how many of them the last stop has doomed, whether a
   stop is pending, what has become of the oldest command, and whether a confirmation is owed.
   */
  datatype Server = Server(queue: seq<Command>, doomed: nat, stopping: bool, started: bool, answered: bool, owed: bool)

  /**
   What such a server may do next. A command is taken out answered, or doomed by a stop; nothing starts between a stop
   and the reset; the reset comes when the last doomed command is out, and is confirmed once.
   */
  predicate Allowed(v: Server, e: Event) {
    match e
    case Accepted(_) => |v.queue| < REQUEST_QUEUE_SIZE
    case Dropped(_) => |v.queue| == REQUEST_QUEUE_SIZE
    case StopSeen => true
    case Started(c) => !v.stopping && !v.started && [c] <= v.queue
    case Responded(c) => v.started && !v.answered && [c] <= v.queue
    case Retired(c) => [c] <= v.queue && if v.stopping then v.doomed > 0 else v.answered
    case PeripheralsReset => v.stopping && v.doomed == 0 && !v.started && !v.owed
    case Confirmed => v.owed
  }

  function Serve(v: Server, e: Event): Server {
    match e
    case Accepted(c) => v.(queue := v.queue + [c])
    case Dropped(_) => v
    case StopSeen => v.(stopping := true, doomed := |v.queue|)
    case Started(_) => v.(started := true)
    case Responded(_) => v.(answered := true)
    case Retired(_) =>
      Server(if v.queue == [] then [] else v.queue[1..], if v.doomed == 0 then 0 else v.doomed - 1, v.stopping, false,
             false, v.owed)
    case PeripheralsReset => v.(stopping := false, owed := true)
    case Confirmed => v.(owed := false)
  }

  function ServerAfter(log: seq<Event>): Server {
    if log == [] then Server([], 0, false, false, false, false)
    else Serve(ServerAfter(log[..|log| - 1]), log[|log| - 1])
  }

  /** Every event of the log was allowed when it happened. */
  predicate Lawful(log: seq<Event>) {
    log == [] || (Lawful(log[..|log| - 1]) && Allowed(ServerAfter(log[..|log| - 1]), log[|log| - 1]))
  }

  lemma LawGrows(log: seq<Event>, e: Event)
    ensures ServerAfter(log + [e]) == Serve(ServerAfter(log), e)
    ensures Lawful(log + [e]) <==> Lawful(log) && Allowed(ServerAfter(log), e)
  {
    assert (log + [e])[..|log + [e]| - 1] == log;
  }

  /** The server that a state of the machine is. */
  predicate Shows(v: Server, q: seq<Command>, stop: nat, phase: Phase) {
    && v.queue == q && v.stopping == (stop > 0) && v.doomed == (if stop == 0 then 0 else stop - 1)
    && v.owed == (phase == Confirming)
    && (phase in {Execute, Respond, Sending} ==> v.started && !v.answered)
    && (phase == Retire && stop == 0 ==> v.started && v.answered)
    && (phase !in {Execute, Respond, Sending, Retire} ==> !v.started && !v.answered)
  }

  /** The machine serves lawfully. */
  predicate Serving(s: State, q: seq<Command>) {
    Lawful(s.log) && Shows(ServerAfter(s.log), q, s.stop, s.phase)
  }

  lemma ReceiveServes(s: State, q: seq<Command>, item: Item)
    requires Inv(s, q) && s.phase != Resetting && Serving(s, q)
    ensures Serving(Receive(s, item), Stored(q, item))
  {
    ReceiveKeeps(s, q, item);
    FullExactlyWhenParsed(s, q);
    match item
    case Stop => LawGrows(s.log, StopSeen);
    case Request(c) => LawGrows(s.log, if |q| < REQUEST_QUEUE_SIZE then Accepted(c) else Dropped(c));
  }

  lemma {:induction false} InterruptServes(s: State, q: seq<Command>, packet: seq<Item>)
    requires Inv(s, q) && s.phase != Resetting && Serving(s, q)
    ensures Serving(Interrupt(s, packet), StoredAll(q, packet))
    decreases |packet|
  {
    if packet != [] {
      var front := packet[..|packet| - 1];
      InterruptServes(s, q, front);
      InterruptKeeps(s, q, front);
      ReceiveServes(Interrupt(s, front), StoredAll(q, front), packet[|packet| - 1]);
    }
  }

  lemma SilentServes(s: State, q: seq<Command>)
    requires s.Shaped() && s.phase in {Poll, Recheck, Execute, Respond, Advance} && Control(s, |q|) && Serving(s, q)
    ensures Serving(MainStep(s), q)
  {
  }

  lemma DispatchServes(s: State, q: seq<Command>)
    requires s.Shaped() && s.phase == Dispatch && q != [] && s.slots[s.processing].command == q[0] && Serving(s, q)
    ensures Serving(MainStep(s), q)
  {
    LawGrows(s.log, Event.Started(q[0]));
  }

  lemma SendingServes(s: State, q: seq<Command>)
    requires s.Shaped() && s.phase == Sending && q != [] && s.slots[s.processing].command == q[0] && Serving(s, q)
    ensures Serving(MainStep(s), q)
  {
    LawGrows(s.log, Event.Responded(q[0]));
  }

  lemma RetireServes(s: State, q: seq<Command>)
    requires s.Shaped() && s.phase == Retire && q != [] && s.slots[s.processing].command == q[0] && Serving(s, q)
    requires Control(s, |q|)
    ensures Serving(MainStep(s), q[1..])
  {
    LawGrows(s.log, Event.Retired(q[0]));
  }

  lemma ResettingServes(s: State, q: seq<Command>)
    requires s.Shaped() && s.phase in {Resetting, Confirming} && Control(s, |q|) && Serving(s, q)
    ensures Serving(MainStep(s), q)
  {
    LawGrows(s.log, if s.phase == Resetting then PeripheralsReset else Confirmed);
  }

  lemma MainStepServes(s: State, q: seq<Command>)
    requires Inv(s, q) && Serving(s, q)
    ensures Serving(MainStep(s), AfterMainStep(s, q))
  {
    if s.phase != Advance && q != [] {
      ProcessesOldest(s, q);
    }
    match s.phase
    case Dispatch => DispatchServes(s, q);
    case Sending => SendingServes(s, q);
    case Retire => RetireServes(s, q);
    case Resetting => ResettingServes(s, q);
    case Confirming => ResettingServes(s, q);
    case _ => SilentServes(s, q);
  }

  lemma StepServes(s: State, t: State, q: seq<Command>) returns (p: seq<Command>)
    requires Inv(s, q) && Serving(s, q) && Steps(s, t)
    ensures Inv(t, p) && Serving(t, p)
  {
    if t == MainStep(s) {
      MainStepKeeps(s, q);
      MainStepServes(s, q);
      p := AfterMainStep(s, q);
    } else {
      var packet :| t == Interrupt(s, packet);
      InterruptKeeps(s, q, packet);
      InterruptServes(s, q, packet);
      p := StoredAll(q, packet);
    }
  }

  lemma {:induction false} RunIsLawful(run: seq<State>, c: Command, k: nat) returns (q: seq<Command>)
    requires Trace(run) && k < |run| && run[0] == Initial(c)
    ensures Inv(run[k], q) && Serving(run[k], q)
  {
    if k == 0 {
      InitialInv(c);
      q := [];
    } else {
      var p := RunIsLawful(run, c, k - 1);
      q := StepServes(run[k - 1], run[k], p);
    }
  }

  // ---- Between resets

  /** Commands started, in order. */
  function Starts(log: seq<Event>): seq<Command> {
    if log == [] then []
    else Starts(log[..|log| - 1]) + if log[|log| - 1].Started? then [log[|log| - 1].command] else []
  }

  /** Commands answered, in order. */
  function Responses(log: seq<Event>): seq<Command> {
    if log == [] then []
    else Responses(log[..|log| - 1]) + if log[|log| - 1].Responded? then [log[|log| - 1].command] else []
  }

  /** What was logged after the last reset. */
  function SinceReset(log: seq<Event>): seq<Event> {
    if log == [] || log[|log| - 1] == PeripheralsReset then [] else SinceReset(log[..|log| - 1]) + [log[|log| - 1]]
  }

  /** The oldest command, if there is one. */
  function Oldest(q: seq<Command>): seq<Command> {
    if q == [] then [] else [q[0]]
  }

  /**
   Every command taken out was started and answered exactly once and in order, and only the oldest one can be on its
   way: already started, or already answered.
   */
  predicate Served(log: seq<Event>, q: seq<Command>, started: bool, answered: bool) {
    && Starts(log) == Retires(log) + (if started then Oldest(q) else [])
    && Responses(log) == Retires(log) + (if answered then Oldest(q) else [])
  }

  lemma LogGrows(log: seq<Event>, e: Event)
    ensures Starts(log + [e]) == Starts(log) + if e.Started? then [e.command] else []
    ensures Responses(log + [e]) == Responses(log) + if e.Responded? then [e.command] else []
    ensures Retires(log + [e]) == Retires(log) + if e.Retired? then [e.command] else []
    ensures StopSeen !in log + [e] ==> StopSeen !in log && e != StopSeen
  {
    assert (log + [e])[..|log + [e]| - 1] == log;
    assert (log + [e])[|log|] == e;
    assert forall x :: x in log ==> x in log + [e];
  }

  /** What a lawful log says of the oldest command, and of a stop. */
  predicate Sound(v: Server) {
    (v.answered ==> v.started) && (v.started ==> v.queue != [])
  }

  lemma ServedOn(log: seq<Event>, v: Server, e: Event)
    requires Served(log, v.queue, v.started, v.answered) && Sound(v) && !v.stopping && Allowed(v, e)
    requires e != StopSeen && e != PeripheralsReset
    ensures var w := Serve(v, e);
            Served(log + [e], w.queue, w.started, w.answered)
  {
    LogGrows(log, e);
  }

  /** In every lawful log, a time since the last reset in which no stop was seen is one of full service. */
  lemma {:induction false} LawfulServes(log: seq<Event>)
    requires Lawful(log)
    ensures var v, recent := ServerAfter(log), SinceReset(log);
            && Sound(v)
            && (StopSeen !in recent ==> !v.stopping && Served(recent, v.queue, v.started, v.answered))
    decreases |log|
  {
    if log != [] {
      var front, e := log[..|log| - 1], log[|log| - 1];
      LawfulServes(front);
      if e != PeripheralsReset {
        LogGrows(SinceReset(front), e);
        if StopSeen !in SinceReset(log) {
          ServedOn(SinceReset(front), ServerAfter(front), e);
        }
      }
    }
  }

  /**
   In every run, whatever the interleaving and however many stops it has: its log is a lawful server's, so every command
   taken out was answered or doomed; and since the last reset, as long as no stop has come, accepted commands are
   started and answered once each, in order.
   */
  lemma RunServes(run: seq<State>, c: Command, k: nat) returns (q: seq<Command>)
    requires Trace(run) && k < |run| && run[0] == Initial(c)
    ensures Inv(run[k], q) && Lawful(run[k].log) && ServerAfter(run[k].log).queue == q
    ensures var recent := SinceReset(run[k].log);
            StopSeen !in recent ==>
              && run[k].stop == 0
              && Served(recent, q, run[k].phase in {Execute, Respond, Sending, Retire}, run[k].phase == Retire)
  {
    q := RunIsLawful(run, c, k);
    LawfulServes(run[k].log);
  }

  function MainSteps(s: State, n: nat): (t: State)
    requires s.Shaped()
    ensures t.Shaped()
    decreases n
  {
    if n == 0 then s else MainSteps(MainStep(s), n - 1)
  }

  /** Where the main loop goes next when there is a command and no stop. */
  function NextPhase(phase: Phase): Phase {
    match phase
    case Poll => Recheck
    case Recheck => Dispatch
    case Dispatch => Execute
    case Execute => Respond
    case Respond => Sending
    case Sending => Retire
    case Retire => Advance
    case _ => Poll
  }

  /** What it logs on the way, for command `c`. */
  function Report(phase: Phase, c: Command): seq<Event> {
    match phase
    case Dispatch => [Event.Started(c)]
    case Sending => [Event.Responded(c)]
    case Retire => [Event.Retired(c)]
    case _ => []
  }

  lemma GoesOn(s: State, q: seq<Command>) returns (t: State)
    requires Inv(s, q) && s.stop == 0 && q != []
             && s.phase in {Poll, Recheck, Dispatch, Execute, Respond, Sending, Retire}
    ensures t == MainStep(s) && Inv(t, AfterMainStep(s, q)) && t.stop == 0
    ensures t.phase == NextPhase(s.phase) && t.log == s.log + Report(s.phase, q[0])
  {
    t := MainStep(s);
    MainStepKeeps(s, q);
    ProcessesOldest(s, q);
  }

  lemma GoesOnTwice(s: State, q: seq<Command>, n: nat) returns (t: State)
    requires Inv(s, q) && s.stop == 0 && q != [] && s.phase in {Poll, Dispatch, Respond} && n >= 2
    ensures t.Shaped() && MainSteps(s, n) == MainSteps(t, n - 2) && Inv(t, q) && t.stop == 0
    ensures t.phase == NextPhase(NextPhase(s.phase))
    ensures t.log == s.log + Report(s.phase, q[0]) + Report(NextPhase(s.phase), q[0])
  {
    var m := GoesOn(s, q);
    t := GoesOn(m, q);
    assert MainSteps(s, n) == MainSteps(m, n - 1);
  }

  lemma LeavesRing(s: State, q: seq<Command>, n: nat) returns (t: State)
    requires Inv(s, q) && s.stop == 0 && q != [] && s.phase == Retire && n == 2
    ensures t == MainSteps(s, n) && Inv(t, q[1..]) && t.phase == Poll && t.stop == 0
            && t.log == s.log + [Event.Retired(q[0])]
  {
    var m := GoesOn(s, q);
    t := MainStep(m);
    MainStepKeeps(m, q[1..]);
    assert MainSteps(s, n) == MainSteps(m, n - 1) && MainSteps(m, n - 1) == MainSteps(t, n - 2);
  }

  lemma StartsOldest(s: State, q: seq<Command>, n: nat) returns (t: State)
    requires Inv(s, q) && s.phase == Poll && s.stop == 0 && q != [] && n >= 4
    ensures t.Shaped() && MainSteps(s, n) == MainSteps(t, n - 4) && Inv(t, q) && t.stop == 0 && t.phase == Respond
    ensures t.log == s.log + [Event.Started(q[0])]
  {
    var m := GoesOnTwice(s, q, n);
    t := GoesOnTwice(m, q, n - 2);
    assert s.log + [] + [] == s.log && m.log + [Event.Started(q[0])] + [] == m.log + [Event.Started(q[0])];
  }

  lemma AnswersOldest(s: State, q: seq<Command>, n: nat) returns (t: State)
    requires Inv(s, q) && s.phase == Respond && s.stop == 0 && q != [] && n == 4
    ensures t == MainSteps(s, n) && Inv(t, q[1..]) && t.phase == Poll && t.stop == 0
    ensures t.log == s.log + [Event.Responded(q[0]), Event.Retired(q[0])]
  {
    var m := GoesOnTwice(s, q, n);
    t := LeavesRing(m, q, n - 2);
    assert s.log + [] + [Event.Responded(q[0])] + [Event.Retired(q[0])]
        == s.log + [Event.Responded(q[0]), Event.Retired(q[0])];
  }

  /** One pass of the main loop without a stop starts, answers and takes out the oldest command. */
  lemma OnePass(s: State, q: seq<Command>, n: nat) returns (t: State)
    requires Inv(s, q) && s.phase == Poll && s.stop == 0 && q != [] && n == 8
    ensures t == MainSteps(s, n) && Inv(t, q[1..]) && t.phase == Poll && t.stop == 0
    ensures t.log == s.log + [Event.Started(q[0]), Event.Responded(q[0]), Event.Retired(q[0])]
  {
    var m := StartsOldest(s, q, n);
    t := AnswersOldest(m, q, n - 4);
    assert [Event.Started(q[0])] + [Event.Responded(q[0]), Event.Retired(q[0])]
        == [Event.Started(q[0]), Event.Responded(q[0]), Event.Retired(q[0])];
    Associative(s.log, [Event.Started(q[0])], [Event.Responded(q[0]), Event.Retired(q[0])]);
  }

  /** A command is dropped exactly when all slots are occupied. */
  lemma DroppedExactlyWhenFull(s: State, q: seq<Command>, c: Command)
    requires Inv(s, q)
    ensures Receive(s, Request(c)).log == s.log + [if |q| == REQUEST_QUEUE_SIZE then Dropped(c) else Accepted(c)]
    ensures |q| == REQUEST_QUEUE_SIZE <==> forall i :: 0 <= i < REQUEST_QUEUE_SIZE ==> s.slots[i].isParsed
  {
    FullExactlyWhenParsed(s, q);
  }

  // ---- The emergency stop

  function Retirements(q: seq<Command>): seq<Event> {
    seq(|q|, i requires 0 <= i < |q| => Retired(q[i]))
  }

  /** A confirmation or a response that the main loop has already decided to send. */
  function Announced(phase: Phase, q: seq<Command>): seq<Event> {
    if phase == Confirming then [Confirmed] else if phase == Sending && q != [] then [Responded(q[0])] else []
  }

  /** The removal of the doomed commands, and the reset. */
  function Stopping(doomed: seq<Command>): seq<Event> {
    Retirements(doomed) + [PeripheralsReset]
  }

  /** What is still to happen up to the reset while a stop is pending. */
  function Pending(s: State, q: seq<Command>): seq<Event>
    requires 0 < s.stop <= |q| + 1
  {
    Announced(s.phase, q) + Stopping(q[..s.stop - 1])
  }

  /** Steps until the reset, at most. */
  function Rank(s: State): nat {
    6 * s.stop + match s.phase
                 case Confirming => 5
                 case Advance => 5
                 case Poll => 4
                 case Recheck => 3
                 case Execute => 3
                 case Dispatch => 2
                 case Respond => 2
                 case Sending => 2
                 case Resetting => 2
                 case Retire => 1
  }

  lemma RetireTowardsReset(s: State, q: seq<Command>)
    requires s.Shaped() && s.phase == Retire && 1 < s.stop <= |q| + 1 && s.slots[s.processing].command == q[0]
    ensures MainStep(s).log + Pending(MainStep(s), q[1..]) == s.log + Pending(s, q)
    ensures q[1..][s.stop - 2..] == q[s.stop - 1..]
  {
    assert Stopping(q[..s.stop - 1]) == [Retired(q[0])] + Stopping(q[1..][..s.stop - 2]);
    Associative(s.log, [Retired(q[0])], Stopping(q[1..][..s.stop - 2]));
  }

  lemma OthersTowardsReset(s: State, q: seq<Command>)
    requires s.Shaped() && s.phase != Retire && s.phase != Resetting && 0 < s.stop && Control(s, |q|)
    requires s.phase != Advance && q != [] ==> s.slots[s.processing] == Slot(true, q[0])
    ensures MainStep(s).stop == s.stop && Rank(MainStep(s)) < Rank(s)
    ensures MainStep(s).log + Pending(MainStep(s), q) == s.log + Pending(s, q)
  {
    var t := MainStep(s);
    assert Announced(t.phase, q) == [];
    assert t.log == s.log + Announced(s.phase, q);
    Associative(s.log, Announced(s.phase, q), Stopping(q[..s.stop - 1]));
  }

  /** A step towards the reset keeps what is logged together with what is to come, and what survives. */
  lemma StepTowardsReset(s: State, q: seq<Command>)
    requires Inv(s, q) && s.stop > 0 && s.phase != Resetting
    ensures var t, p := MainStep(s), AfterMainStep(s, q);
      && Inv(t, p) && t.stop > 0 && Rank(t) < Rank(s)
      && t.log + Pending(t, p) == s.log + Pending(s, q)
      && p[t.stop - 1..] == q[s.stop - 1..]
  {
    MainStepKeeps(s, q);
    if s.phase != Advance && q != [] {
      ProcessesOldest(s, q);
    }
    if s.phase == Retire {
      RetireTowardsReset(s, q);
    } else {
      OthersTowardsReset(s, q);
    }
  }

  lemma ResetStep(s: State, q: seq<Command>)
    requires Inv(s, q) && s.phase == Resetting
    ensures Inv(MainStep(s), q) && s.stop == EMERGENCY_STOP_NOW
    ensures MainStep(s).log == s.log + Pending(s, q) && MainStep(s).stop == 0 && MainStep(s).usb
  {
    MainStepKeeps(s, q);
  }

  /** While a stop is pending only the main loop moves. */
  lemma OnlyMainLoop(s: State, t: State, q: seq<Command>)
    requires Inv(s, q) && s.stop > 0 && Steps(s, t)
    ensures t == MainStep(s)
  {
  }

  /**
   A stop is pending for `n` states, in which nothing but the given events has been logged so far; then the reset has
   been made, after exactly these events, and `left` is queued.
   */
  ghost predicate Resets(run: seq<State>, n: nat, events: seq<Event>, left: seq<Command>) {
    && (forall k :: 0 <= k < n && k < |run| ==> run[k].stop > 0 && !run[k].usb && run[k].log <= run[0].log + events)
    && (n < |run| ==>
          && run[n].stop == 0 && run[n].usb && run[n].phase == Confirming
          && run[n].log == run[0].log + events
          && Inv(run[n], left))
  }

  lemma RestIsTrace(run: seq<State>)
    requires Trace(run) && |run| > 1
    ensures Trace(run[1..])
  {
  }

  /** A reset seen from one step earlier. */
  lemma ResetsLater(run: seq<State>, n: nat, later: seq<Event>, events: seq<Event>, left: seq<Command>)
    requires |run| > 1 && Resets(run[1..], n, later, left) && run[0].stop > 0 && !run[0].usb
    requires run[1].log + later == run[0].log + events
    ensures Resets(run, n + 1, events, left)
  {
    assert forall k :: 0 < k < |run| ==> run[k] == run[1..][k - 1];
  }

  /** The reset is the next step, or the run ends here. */
  lemma ResetsNext(run: seq<State>, q: seq<Command>)
    requires |run| > 0 && Inv(run[0], q) && run[0].stop > 0
    requires |run| > 1 ==> run[0].phase == Resetting && run[1] == MainStep(run[0])
    ensures Resets(run, 1, Pending(run[0], q), q[run[0].stop - 1..])
  {
    if |run| > 1 {
      ResetStep(run[0], q);
    }
  }

  /**
   Every run from a state with a pending stop: if it is long enough it reaches the reset, and by then it has logged
   exactly the pending events: nothing started, exactly the doomed commands removed, one reset; the other commands are
   still queued.
   */
  lemma {:induction false} StopEndsInReset(run: seq<State>, q: seq<Command>) returns (n: nat)
    requires Trace(run) && |run| > 0 && Inv(run[0], q) && run[0].stop > 0
    ensures 0 < n <= Rank(run[0])
    ensures Resets(run, n, Pending(run[0], q), q[run[0].stop - 1..])
    decreases Rank(run[0])
  {
    var s := run[0];
    if |run| == 1 {
      ResetsNext(run, q);
      n := 1;
    } else {
      OnlyMainLoop(s, run[1], q);
      if s.phase == Resetting {
        ResetsNext(run, q);
        n := 1;
      } else {
        var p := AfterMainStep(s, q);
        StepTowardsReset(s, q);
        RestIsTrace(run);
        var m := StopEndsInReset(run[1..], p);
        n := m + 1;
        ResetsLater(run, m, Pending(run[1], p), Pending(s, q), q[s.stop - 1..]);
      }
    }
  }

  /** Commands of a packet part without a stop go behind the queue, as far as there is room. */
  lemma {:induction false} PacketExtends(s: State, q: seq<Command>, packet: seq<Item>)
    requires Inv(s, q) && s.phase != Resetting && forall i :: 0 <= i < |packet| ==> packet[i].Request?
    ensures q <= StoredAll(q, packet) && Interrupt(s, packet).stop == s.stop
    decreases |packet|
  {
    if packet != [] {
      var front := packet[..|packet| - 1];
      PacketExtends(s, q, front);
      InterruptKeeps(s, q, front);
      ReceiveKeeps(Interrupt(s, front), StoredAll(q, front), packet[|packet| - 1]);
    }
  }

  lemma {:induction false} PacketSplits(s: State, q: seq<Command>, a: seq<Item>, b: seq<Item>)
    requires s.Shaped()
    ensures Interrupt(s, a + b) == Interrupt(Interrupt(s, a), b) && StoredAll(q, a + b) == StoredAll(StoredAll(q, a), b)
    decreases |b|
  {
    if b == [] {
      assert a + b == a;
    } else {
      PacketSplits(s, q, a, b[..|b| - 1]);
      assert (a + b)[..|a + b| - 1] == a + b[..|b| - 1];
    }
  }

  /** A packet dooms the commands queued when its last stop was parsed; the commands behind that stop survive. */
  lemma PacketDooms(s: State, q: seq<Command>, before: seq<Item>, after: seq<Item>)
    requires Inv(s, q) && s.phase != Resetting && forall i :: 0 <= i < |after| ==> after[i].Request?
    ensures var t, doomed := Interrupt(s, before + [Stop] + after), StoredAll(q, before);
      var queued := StoredAll(q, before + [Stop] + after);
      && Inv(t, queued) && t.phase == s.phase
      && t.stop == |doomed| + 1 && doomed <= queued
      && queued == StoredAll(doomed, after)
  {
    var doomed := StoredAll(q, before);
    var u := Interrupt(s, before);
    PacketSplits(s, q, before + [Stop], after);
    assert (before + [Stop])[..|before|] == before;
    InterruptKeeps(s, q, before);
    ReceiveKeeps(u, doomed, Stop);
    PacketExtends(Receive(u, Stop), doomed, after);
    InterruptKeeps(s, q, before + [Stop] + after);
  }

  lemma {:induction false} PrefixOfStored(q: seq<Command>, packet: seq<Item>)
    ensures q <= StoredAll(q, packet)
    decreases |packet|
  {
    if packet != [] {
      PrefixOfStored(q, packet[..|packet| - 1]);
    }
  }

  /** What is pending after a packet with a stop. */
  lemma PendingDoom(t: State, phase: Phase, q: seq<Command>, queued: seq<Command>, doomed: seq<Command>)
    requires t.phase == phase && t.stop == |doomed| + 1 && doomed <= queued && q <= queued
    requires phase == Sending ==> q != []
    ensures Pending(t, queued) == Announced(phase, q) + Stopping(doomed) && t.stop - 1 == |doomed|
  {
    assert queued[..|doomed|] == doomed;
  }

  /**
   An interrupt with a stop, and every run after it: the reset comes within the rank of the first state; until then no
   state has logged anything but the removal of the commands queued when the last stop of the packet was parsed, at the
   end exactly those have been removed, and the commands behind that stop in the packet are what is left.
   */
  lemma EmergencyStop(run: seq<State>, s: State, q: seq<Command>, before: seq<Item>, after: seq<Item>) returns (n: nat)
    requires Inv(s, q) && s.usb && forall i :: 0 <= i < |after| ==> after[i].Request?
    requires Trace(run) && |run| > 0 && run[0] == Interrupt(s, before + [Stop] + after)
    ensures 0 < n <= Rank(run[0])
    ensures var doomed := StoredAll(q, before);
      && doomed <= StoredAll(doomed, after)
      && Resets(run, n, Announced(s.phase, q) + Stopping(doomed), StoredAll(doomed, after)[|doomed|..])
  {
    var queued := StoredAll(q, before + [Stop] + after);
    var doomed := StoredAll(q, before);
    PacketDooms(s, q, before, after);
    PrefixOfStored(q, before + [Stop] + after);
    PendingDoom(run[0], s.phase, q, queued, doomed);
    n := StopEndsInReset(run, queued);
  }

  lemma SinglePacket(s: State, item: Item)
    requires s.Shaped()
    ensures Interrupt(s, [item]) == Receive(s, item)
  {
    assert [item][..0] == [];
    assert Interrupt(s, []) == s;
  }

  lemma Extends(run: seq<State>, t: State)
    requires Trace(run) && |run| > 0 && t.Shaped() && Steps(run[|run| - 1], t)
    ensures Trace(run + [t])
  {
  }

  lemma TakesMainStep(run: seq<State>) returns (longer: seq<State>)
    requires Trace(run) && |run| > 0
    ensures Trace(longer) && longer == run + [MainStep(run[|run| - 1])]
  {
    longer := run + [MainStep(run[|run| - 1])];
    Extends(run, MainStep(run[|run| - 1]));
  }

  lemma TakesPacket(run: seq<State>, item: Item) returns (longer: seq<State>)
    requires Trace(run) && |run| > 0 && run[|run| - 1].usb
    ensures Trace(longer) && longer == run + [Receive(run[|run| - 1], item)]
  {
    longer := run + [Receive(run[|run| - 1], item)];
    SinglePacket(run[|run| - 1], item);
    Extends(run, Receive(run[|run| - 1], item));
  }

  /** A run in which a command is answered after a stop was seen: the stop comes while the answer is being sent. */
  lemma AnsweredAfterStop(c: Command) returns (run: seq<State>)
    ensures Trace(run) && |run| == 9 && run[0] == Initial(c) && run[6].phase == Sending
    ensures run[7] == Interrupt(run[6], [Stop]) && run[8] == MainStep(run[7])
    ensures run[8].log == [Accepted(c), Started(c), StopSeen, Responded(c)]
  {
    run := TakesPacket([Initial(c)], Request(c));
    run := TakesMainStep(run);
    run := TakesMainStep(run);
    run := TakesMainStep(run);
    run := TakesMainStep(run);
    run := TakesMainStep(run);
    assert |run| == 7 && run[6].phase == Sending && run[6].log == [Accepted(c), Started(c)];
    assert run[6].usb && run[6].slots[run[6].processing].command == c;
    SinglePacket(run[6], Stop);
    run := TakesPacket(run, Stop);
    run := TakesMainStep(run);
  }

  // ---- The same in place

  lemma CountNext(slots: seq<Slot>, i: nat)
    requires i < |slots|
    ensures NumberParsed(slots[..i + 1]) == NumberParsed(slots[..i]) + if slots[i].isParsed then 1 else 0
  {
    assert slots[..i + 1][..i] == slots[..i];
  }

  /** The globals of main.cpp that the main loop and the USB interrupt share. */
  class RequestQueue {
    const requests: array<Slot>
    var processing: nat
    var receiving: nat
    var stop: nat
    var usb: bool
    var phase: Phase
    ghost var log: seq<Event>

    ghost predicate Valid()
      reads this
    {
      requests.Length == REQUEST_QUEUE_SIZE && processing < REQUEST_QUEUE_SIZE && receiving < REQUEST_QUEUE_SIZE
    }

    ghost function View(): State
      reads this, requests
    {
      State(requests[..], processing, receiving, stop, usb, phase, log)
    }

    constructor (blank: Command)
      ensures Valid() && View() == Initial(blank) && fresh(requests)
    {
      requests := new Slot[REQUEST_QUEUE_SIZE](_ => Slot(false, blank));
      processing, receiving, stop, usb, phase, log := 0, 0, NO_EMERGENCY_STOP, true, Poll, [];
      new;
      assert requests[..] == Initial(blank).slots;
    }

    method SetEmergencyStop()
      requires Valid()
      modifies this
      ensures Valid() && View() == Receive(old(View()), Stop)
    {
      usb := false;
      log := log + [StopSeen];
      stop := EMERGENCY_STOP_NOW;
      for i := 0 to REQUEST_QUEUE_SIZE
        invariant Valid()
        invariant stop == EMERGENCY_STOP_NOW + NumberParsed(requests[..][..i])
        invariant View() == old(View()).(usb := false, log := old(log) + [StopSeen], stop := stop)
      {
        CountNext(requests[..], i);
        if requests[i].isParsed {
          stop := stop + 1;
        }
      }
      assert requests[..][..REQUEST_QUEUE_SIZE] == requests[..];
    }

    method ReceiveCommand(item: Item)
      requires Valid()
      modifies this, requests
      ensures Valid() && View() == Receive(old(View()), item)
    {
      if item.Stop? {
        SetEmergencyStop();
      } else if !requests[receiving].isParsed {
        requests[receiving] := Slot(true, item.command);
        receiving := if receiving == REQUEST_QUEUE_SIZE - 1 then 0 else receiving + 1;
        log := log + [Accepted(item.command)];
      } else {
        log := log + [Dropped(item.command)];
      }
    }

    method CdcRxNotifyCallback(packet: seq<Item>)
      requires Valid()
      modifies this, requests
      ensures Valid() && View() == Interrupt(old(View()), packet)
    {
      for i := 0 to |packet|
        invariant Valid() && View() == Interrupt(old(View()), packet[..i])
      {
        assert packet[..i + 1][..i] == packet[..i];
        ReceiveCommand(packet[i]);
      }
      assert packet[..|packet|] == packet;
    }

    method ClearRequest()
      requires Valid() && phase == Retire
      modifies this, requests
      ensures Valid() && View() == MainStep(old(View()))
    {
      usb := false;
      log := log + [Retired(requests[processing].command)];
      requests[processing] := requests[processing].(isParsed := false);
      phase := Advance;
      if stop == 0 {
        usb := true;
      } else {
        stop := stop - 1;
      }
    }

    method ResetPeripherals()
      requires Valid() && phase == Resetting
      modifies this
      ensures Valid() && View() == MainStep(old(View()))
    {
      log := log + [PeripheralsReset];
      stop := NO_EMERGENCY_STOP;
      usb := true;
      phase := Confirming;
    }

    /** The next action of the main loop. */
    method MainLoop()
      requires Valid()
      modifies this, requests
      ensures Valid() && View() == MainStep(old(View()))
    {
      match phase
      case Poll =>
        if requests[processing].isParsed || stop == EMERGENCY_STOP_NOW {
          phase := Recheck;
        }
      case Recheck => phase := if stop != EMERGENCY_STOP_NOW then Dispatch else Resetting;
      case Dispatch =>
        if stop == 0 {
          phase := Execute;
          log := log + [Started(requests[processing].command)];
        } else {
          phase := Retire;
        }
      case Execute => phase := Respond;
      case Respond => phase := if stop == 0 then Sending else Retire;
      case Sending =>
        phase := Retire;
        log := log + [Responded(requests[processing].command)];
      case Retire => ClearRequest();
      case Advance =>
        processing := if processing == REQUEST_QUEUE_SIZE - 1 then 0 else processing + 1;
        phase := Poll;
      case Resetting => ResetPeripherals();
      case Confirming =>
        phase := Poll;
        log := log + [Confirmed];
    }
  }
}
