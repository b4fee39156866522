/**
 * The serialised writer in front of the claude process (src/agent-runner.ts,
 * src/runners/turns/claude.ts): one message at a time, in arrival order, each under the permission
 * mode that its own sender calls for. Modelled while stdin stays writable and nothing restarts.
 */
module ClaudeStdin {
  import opened Common

  datatype Mode = Default | BypassPermissions

  datatype Message = Message(content: string, member: bool)

  /** `claudePermissionModeForTurn`. */
  function ModeFor(m: Message, autoApprove: bool): Mode {
    if m.member then Default else if autoApprove then BypassPermissions else Default
  }

  /** A mode change on its way: the message that waits for it and the mode asked for. */
  datatype Request = Request(item: Message, mode: Mode)

  /** What the outside sees: control requests, messages with the mode in force, blocked messages, closed turns. */
  datatype Entry = Control(mode: Mode) | User(msg: Message, mode: Mode) | Blocked(msg: Message) | Closed

  datatype State = State(
    queue: seq<Message>,
    inflight: Option<Message>,
    timings: nat,
    switching: bool,
    requests: seq<Request>,
    pin: Option<Mode>,
    mode: Mode,
    sawInit: bool,
    log: seq<Entry>)

  function Start(autoApprove: bool): State {
    State([], None, 0, false, [], None, if autoApprove then BypassPermissions else Default, false, [])
  }

  predicate Busy(s: State) {
    s.inflight.Some? || s.switching || s.timings > 0
  }

  /** `writeClaudeMessage`. */
  function Write(s: State, m: Message): State {
    s.(timings := s.timings + 1, inflight := Some(m), pin := None, log := s.log + [User(m, s.mode)])
  }

  /** `sendClaudeMessage`. */
  function Send(s: State, m: Message, autoApprove: bool): State {
    var next := ModeFor(m, autoApprove);
    var pinned := s.(pin := Some(next));
    if next != s.mode then
      pinned.(switching := true, requests := s.requests + [Request(m, next)], log := s.log + [Control(next)])
    else Write(pinned, m)
  }

  /** `drainClaudeWriteQueue`. */
  function Drain(s: State, autoApprove: bool): State {
    if Busy(s) || s.queue == [] then s
    else Send(s.(queue := s.queue[1..], pin := None), s.queue[0], autoApprove)
  }

  /** The part of the member gate that is about this writer; `gateOpen` is the rest of it. */
  predicate MemberMay(s: State, gateOpen: bool) {
    gateOpen && s.sawInit && s.inflight.None? && !s.switching && s.queue == []
  }

  /** `pushUserMessage`, claude branch; the flag is its answer. */
  function Push(s: State, m: Message, gateOpen: bool, autoApprove: bool): (State, bool) {
    if m.member && !MemberMay(s, gateOpen) then (s, false)
    else if Busy(s) then (s.(queue := s.queue + [m]), true)
    else (Send(s, m, autoApprove), true)
  }

  function Settled(s: State, i: nat): State
    requires i < |s.requests|
  {
    s.(requests := s.requests[..i] + s.requests[i + 1..], switching := false)
  }

  /** The mode change is confirmed; a pin that moved meanwhile blocks the turn. */
  function Ack(s: State, i: nat, autoApprove: bool): State
    requires i < |s.requests|
  {
    var r := s.requests[i];
    if s.pin != Some(r.mode) then Drain(Settled(s, i).(log := s.log + [Blocked(r.item)]), autoApprove)
    else Write(Settled(s, i).(mode := r.mode), r.item)
  }

  /** The mode change is refused or times out. */
  function Nack(s: State, i: nat, autoApprove: bool): State
    requires i < |s.requests|
  {
    Drain(Settled(s, i).(log := s.log + [Blocked(s.requests[i].item)]), autoApprove)
  }

  /** The turn in flight is over. */
  function Ended(s: State): State {
    s.(inflight := None, timings := if s.timings > 0 then s.timings - 1 else 0,
       log := if s.inflight.Some? then s.log + [Closed] else s.log)
  }

  /** The `result` event. */
  function Close(s: State, autoApprove: bool): State {
    Drain(Ended(s), autoApprove)
  }

  datatype Event = Arrives(m: Message, gateOpen: bool) | Acked(i: nat) | Nacked(i: nat) | TurnEnds | Ready

  function Step(s: State, e: Event, autoApprove: bool): State {
    match e
    case Arrives(m, gateOpen) => Push(s, m, gateOpen, autoApprove).0
    case Acked(i) => if i < |s.requests| then Ack(s, i, autoApprove) else s
    case Nacked(i) => if i < |s.requests| then Nack(s, i, autoApprove) else s
    case TurnEnds => Close(s, autoApprove)
    case Ready => s.(sawInit := true)
  }

  function Run(events: seq<Event>, autoApprove: bool): State {
    if events == [] then Start(autoApprove)
    else Step(Run(events[..|events| - 1], autoApprove), events[|events| - 1], autoApprove)
  }

  /** What has arrived after one more event. */
  function ArrivedWith(s: State, e: Event, arrived: seq<Message>, autoApprove: bool): seq<Message> {
    if e.Arrives? && Push(s, e.m, e.gateOpen, autoApprove).1 then arrived + [e.m] else arrived
  }

  /** The messages taken so far, in order of arrival. */
  function Arrived(events: seq<Event>, autoApprove: bool): seq<Message> {
    if events == [] then []
    else
      var before := events[..|events| - 1];
      ArrivedWith(Run(before, autoApprove), events[|events| - 1], Arrived(before, autoApprove), autoApprove)
  }

  /* ---------- what the log says ---------- */

  /** The messages that were written or blocked, in order. */
  function Handled(log: seq<Entry>): seq<Message> {
    if log == [] then []
    else
      var before, e := Handled(log[..|log| - 1]), log[|log| - 1];
      if e.User? || e.Blocked? then before + [e.msg] else before
  }

  /** Whether a written message has not been answered yet. */
  predicate Open(log: seq<Entry>) {
    if log == [] then false
    else
      var e := log[|log| - 1];
      if e.User? then true else if e.Closed? then false else Open(log[..|log| - 1])
  }

  /** A member's message runs under the default mode; an owner's bypasses permissions exactly under auto-approval. */
  predicate RightMode(m: Message, mode: Mode, autoApprove: bool) {
    if m.member then mode == Default else (mode == BypassPermissions <==> autoApprove)
  }

  /** No message is written while another is open, and each goes out under the right mode for its sender. */
  ghost predicate Serial(log: seq<Entry>, autoApprove: bool) {
    forall k :: 0 <= k < |log| && log[k].User? ==> !Open(log[..k]) && RightMode(log[k].msg, log[k].mode, autoApprove)
  }

  function Awaiting(s: State): seq<Message> {
    seq(|s.requests|, i requires 0 <= i < |s.requests| => s.requests[i].item)
  }

  lemma LogGrows(log: seq<Entry>, e: Entry, autoApprove: bool)
    requires Serial(log, autoApprove)
    requires e.User? ==> !Open(log) && RightMode(e.msg, e.mode, autoApprove)
    ensures Serial(log + [e], autoApprove)
    ensures Open(log + [e]) <==> if e.User? then true else if e.Closed? then false else Open(log)
    ensures Handled(log + [e]) == if e.User? || e.Blocked? then Handled(log) + [e.msg] else Handled(log)
  {
    var all := log + [e];
    assert all[..|log|] == log;
    forall k | 0 <= k < |all| && all[k].User?
        ensures !Open(all[..k]) && RightMode(all[k].msg, all[k].mode, autoApprove) {
      if k < |log| {
        assert all[..k] == log[..k];
      }
    }
  }

  /* ---------- the invariant ---------- */

  ghost predicate OwnersOnly(queue: seq<Message>) {
    forall i :: 0 <= i < |queue| ==> !queue[i].member
  }

  /** One mode change at most, for the pinned mode; a queue only while something is outstanding; no member in it. */
  ghost predicate Inv(s: State, autoApprove: bool) {
    && s.timings == (if s.inflight.Some? then 1 else 0)
    && |s.requests| == (if s.switching then 1 else 0)
    && !(s.inflight.Some? && s.switching)
    && (s.switching ==>
      s.pin == Some(s.requests[0].mode) && RightMode(s.requests[0].item, s.requests[0].mode, autoApprove))
    && (s.queue != [] ==> s.inflight.Some? || s.switching)
    && OwnersOnly(s.queue)
    && (s.inflight.Some? <==> Open(s.log))
    && Serial(s.log, autoApprove)
  }

  /** What is taken is handled, waiting for its mode, or queued, in this order. */
  ghost predicate InOrder(s: State, arrived: seq<Message>) {
    arrived == Handled(s.log) + Awaiting(s) + s.queue
  }

  lemma WriteKeeps(s: State, m: Message, rest: seq<Message>, autoApprove: bool)
    requires s.inflight.None? && s.timings == 0 && !s.switching && s.requests == [] && !Open(s.log) &&
             Serial(s.log, autoApprove)
    requires RightMode(m, s.mode, autoApprove) && OwnersOnly(s.queue)
    ensures Inv(Write(s, m), autoApprove)
    ensures InOrder(Write(s, m), Handled(s.log) + [m] + s.queue)
  {
    LogGrows(s.log, User(m, s.mode), autoApprove);
    assert Awaiting(Write(s, m)) == [];
    assert Handled(s.log) + [m] + [] + s.queue == Handled(s.log) + [m] + s.queue;
  }

  lemma SendKeeps(s: State, m: Message, autoApprove: bool)
    requires s.inflight.None? && s.timings == 0 && !s.switching && s.requests == [] && !Open(s.log) &&
             Serial(s.log, autoApprove)
    requires OwnersOnly(s.queue)
    ensures Inv(Send(s, m, autoApprove), autoApprove)
    ensures InOrder(Send(s, m, autoApprove), Handled(s.log) + [m] + s.queue)
  {
    var next := ModeFor(m, autoApprove);
    if next == s.mode {
      WriteKeeps(s.(pin := Some(next)), m, s.queue, autoApprove);
    } else {
      LogGrows(s.log, Control(next), autoApprove);
      assert Awaiting(Send(s, m, autoApprove)) == [m];
    }
  }

  lemma HeadAndTail(before: seq<Message>, queue: seq<Message>)
    requires queue != []
    ensures before + [queue[0]] + queue[1..] == before + queue
  {
  }

  /** Draining an idle writer leaves nothing stuck. */
  lemma DrainKeeps(s: State, autoApprove: bool)
    requires s.timings == (if s.inflight.Some? then 1 else 0)
    requires s.inflight.None? && !s.switching && s.requests == [] && !Open(s.log) && Serial(s.log, autoApprove)
    requires OwnersOnly(s.queue)
    ensures Inv(Drain(s, autoApprove), autoApprove)
    ensures InOrder(Drain(s, autoApprove), Handled(s.log) + s.queue)
  {
    if s.queue == [] {
      assert Awaiting(s) == [];
    } else {
      var head, tail := s.queue[0], s.queue[1..];
      assert OwnersOnly(tail);
      SendKeeps(s.(queue := tail, pin := None), head, autoApprove);
      HeadAndTail(Handled(s.log), s.queue);
    }
  }

  lemma PushKeeps(s: State, m: Message, gateOpen: bool, arrived: seq<Message>, autoApprove: bool)
    requires Inv(s, autoApprove) && InOrder(s, arrived)
    ensures var (t, ok) := Push(s, m, gateOpen, autoApprove);
            Inv(t, autoApprove) && InOrder(t, if ok then arrived + [m] else arrived)
  {
    if m.member && !MemberMay(s, gateOpen) {
    } else if Busy(s) {
      assert Awaiting(s.(queue := s.queue + [m])) == Awaiting(s);
      assert Handled(s.log) + Awaiting(s) + (s.queue + [m]) == arrived + [m];
    } else {
      SendKeeps(s, m, autoApprove);
      assert Awaiting(s) == [] && s.queue == [];
      assert Handled(s.log) + [] + [] + [m] == Handled(s.log) + [m] + [];
    }
  }

  /** The pin never moves while a change is on its way: the branch that blocks for it is dead. */
  lemma PinNeverMoves(s: State, i: nat, autoApprove: bool)
    requires Inv(s, autoApprove) && i < |s.requests|
    ensures s.pin == Some(s.requests[i].mode)
    ensures Ack(s, i, autoApprove) == Write(Settled(s, i).(mode := s.requests[i].mode), s.requests[i].item)
  {
  }

  lemma SettledIsIdle(s: State, i: nat, autoApprove: bool)
    requires Inv(s, autoApprove) && i < |s.requests|
    ensures i == 0 && Settled(s, i).requests == [] && Awaiting(s) == [s.requests[0].item]
  {
  }

  lemma AckKeeps(s: State, i: nat, arrived: seq<Message>, autoApprove: bool)
    requires Inv(s, autoApprove) && InOrder(s, arrived) && i < |s.requests|
    ensures Inv(Ack(s, i, autoApprove), autoApprove) && InOrder(Ack(s, i, autoApprove), arrived)
  {
    SettledIsIdle(s, i, autoApprove);
    PinNeverMoves(s, i, autoApprove);
    WriteKeeps(Settled(s, i).(mode := s.requests[i].mode), s.requests[i].item, s.queue, autoApprove);
  }

  lemma NackKeeps(s: State, i: nat, arrived: seq<Message>, autoApprove: bool)
    requires Inv(s, autoApprove) && InOrder(s, arrived) && i < |s.requests|
    ensures Inv(Nack(s, i, autoApprove), autoApprove) && InOrder(Nack(s, i, autoApprove), arrived)
  {
    SettledIsIdle(s, i, autoApprove);
    LogGrows(s.log, Blocked(s.requests[i].item), autoApprove);
    DrainKeeps(Settled(s, i).(log := s.log + [Blocked(s.requests[i].item)]), autoApprove);
  }

  lemma CloseOpenKeeps(s: State, arrived: seq<Message>, autoApprove: bool)
    requires Inv(s, autoApprove) && InOrder(s, arrived) && s.inflight.Some?
    ensures Inv(Close(s, autoApprove), autoApprove) && InOrder(Close(s, autoApprove), arrived)
  {
    LogGrows(s.log, Closed, autoApprove);
    DrainKeeps(Ended(s), autoApprove);
    assert Awaiting(s) == [];
    assert Handled(s.log) + [] == Handled(s.log);
  }

  lemma CloseKeeps(s: State, arrived: seq<Message>, autoApprove: bool)
    requires Inv(s, autoApprove) && InOrder(s, arrived)
    ensures Inv(Close(s, autoApprove), autoApprove) && InOrder(Close(s, autoApprove), arrived)
  {
    if s.inflight.Some? {
      CloseOpenKeeps(s, arrived, autoApprove);
    } else {
      assert Ended(s) == s;
      assert Drain(s, autoApprove) == s;
    }
  }

  lemma StepKeeps(s: State, e: Event, arrived: seq<Message>, autoApprove: bool)
    requires Inv(s, autoApprove) && InOrder(s, arrived)
    ensures Inv(Step(s, e, autoApprove), autoApprove) &&
            InOrder(Step(s, e, autoApprove), ArrivedWith(s, e, arrived, autoApprove))
  {
    match e
    case Arrives(m, gateOpen) => PushKeeps(s, m, gateOpen, arrived, autoApprove);
    case Acked(i) => if i < |s.requests| { AckKeeps(s, i, arrived, autoApprove); }
    case Nacked(i) => if i < |s.requests| { NackKeeps(s, i, arrived, autoApprove); }
    case TurnEnds => CloseKeeps(s, arrived, autoApprove);
    case Ready => assert Awaiting(s.(sawInit := true)) == Awaiting(s);
  }

  /**
   * Every run of arrivals, confirmations, refusals and turn ends: at most one message is open, messages
   * go out in arrival order, each under the mode its own sender calls for, and nothing gets stuck.
   */
  lemma {:induction false} EveryRunIsSerial(events: seq<Event>, autoApprove: bool)
    ensures Inv(Run(events, autoApprove), autoApprove)
    ensures InOrder(Run(events, autoApprove), Arrived(events, autoApprove))
  {
    if events == [] {
      assert Awaiting(Start(autoApprove)) == [];
    } else {
      var before, e := events[..|events| - 1], events[|events| - 1];
      EveryRunIsSerial(before, autoApprove);
      StepKeeps(Run(before, autoApprove), e, Arrived(before, autoApprove), autoApprove);
    }
  }

  /* ---------- the mode in force, told from what was sent ---------- */

  /** The mode a message runs under: the last one asked for, unless the message it was asked for was blocked. */
  function InForce(log: seq<Entry>, autoApprove: bool): Mode {
    if log == [] then if autoApprove then BypassPermissions else Default
    else
      var n := |log| - 1;
      if log[n].Control? then log[n].mode
      else if log[n].Blocked? && n > 0 then InForce(log[..n - 1], autoApprove)
      else InForce(log[..n], autoApprove)
  }

  /** Each message carries the mode in force when it was written, and no change is asked for to the mode in force. */
  ghost predicate Truthful(log: seq<Entry>, autoApprove: bool) {
    && (forall k :: 0 <= k < |log| && log[k].User? ==> log[k].mode == InForce(log[..k], autoApprove))
    && (forall k :: 0 <= k < |log| && log[k].Control? ==> log[k].mode != InForce(log[..k], autoApprove))
  }

  /** The writer's own idea of the mode is the mode in force; while a change is on its way, the one before it. */
  ghost predicate Told(s: State, autoApprove: bool) {
    && Truthful(s.log, autoApprove)
    && (if s.switching then
          s.requests != [] && s.log != [] && s.log[|s.log| - 1] == Control(s.requests[0].mode) &&
          s.mode == InForce(s.log[..|s.log| - 1], autoApprove)
        else s.mode == InForce(s.log, autoApprove))
  }

  lemma TruthGrows(log: seq<Entry>, e: Entry, autoApprove: bool)
    requires Truthful(log, autoApprove)
    requires e.User? ==> e.mode == InForce(log, autoApprove)
    requires e.Control? ==> e.mode != InForce(log, autoApprove)
    ensures Truthful(log + [e], autoApprove)
    ensures InForce(log + [e], autoApprove) ==
            if e.Control? then e.mode
            else if e.Blocked? && log != [] then InForce(log[..|log| - 1], autoApprove)
            else InForce(log, autoApprove)
  {
    var all := log + [e];
    assert all[..|log|] == log;
    if log != [] {
      assert all[..|log| - 1] == log[..|log| - 1];
    }
    forall k | 0 <= k < |log| ensures all[..k] == log[..k] && all[k] == log[k] {
    }
  }

  lemma SendTells(s: State, m: Message, autoApprove: bool)
    requires Told(s, autoApprove) && !s.switching && s.requests == []
    ensures Told(Send(s, m, autoApprove), autoApprove)
  {
    var next := ModeFor(m, autoApprove);
    if next == s.mode {
      TruthGrows(s.log, User(m, s.mode), autoApprove);
    } else {
      TruthGrows(s.log, Control(next), autoApprove);
      assert (s.log + [Control(next)])[..|s.log|] == s.log;
    }
  }

  lemma DrainTells(s: State, autoApprove: bool)
    requires Told(s, autoApprove) && !s.switching && s.requests == []
    ensures Told(Drain(s, autoApprove), autoApprove)
  {
    if !Busy(s) && s.queue != [] {
      SendTells(s.(queue := s.queue[1..], pin := None), s.queue[0], autoApprove);
    }
  }

  lemma AckTells(s: State, i: nat, autoApprove: bool)
    requires Inv(s, autoApprove) && Told(s, autoApprove) && i < |s.requests|
    ensures Told(Ack(s, i, autoApprove), autoApprove)
  {
    SettledIsIdle(s, i, autoApprove);
    PinNeverMoves(s, i, autoApprove);
    TruthGrows(s.log, User(s.requests[0].item, s.requests[0].mode), autoApprove);
  }

  lemma NackTells(s: State, i: nat, autoApprove: bool)
    requires Inv(s, autoApprove) && Told(s, autoApprove) && i < |s.requests|
    ensures Told(Nack(s, i, autoApprove), autoApprove)
  {
    SettledIsIdle(s, i, autoApprove);
    TruthGrows(s.log, Blocked(s.requests[0].item), autoApprove);
    DrainTells(Settled(s, i).(log := s.log + [Blocked(s.requests[0].item)]), autoApprove);
  }

  lemma StepTells(s: State, e: Event, autoApprove: bool)
    requires Inv(s, autoApprove) && Told(s, autoApprove)
    ensures Told(Step(s, e, autoApprove), autoApprove)
  {
    match e
    case Arrives(m, gateOpen) => if !Busy(s) { SendTells(s, m, autoApprove); }
    case Acked(i) => if i < |s.requests| { AckTells(s, i, autoApprove); }
    case Nacked(i) => if i < |s.requests| { NackTells(s, i, autoApprove); }
    case TurnEnds =>
      if s.inflight.Some? {
        TruthGrows(s.log, Closed, autoApprove);
        DrainTells(Ended(s), autoApprove);
      }
    case Ready =>
  }

  lemma {:induction false} EveryRunTells(events: seq<Event>, autoApprove: bool)
    ensures Told(Run(events, autoApprove), autoApprove)
  {
    if events == [] {
      assert Start(autoApprove).log == [];
    } else {
      var before, e := events[..|events| - 1], events[|events| - 1];
      EveryRunTells(before, autoApprove);
      EveryRunIsSerial(before, autoApprove);
      StepTells(Run(before, autoApprove), e, autoApprove);
    }
  }

  /** Every message written: under the mode in force, which is the one that its sender calls for. */
  ghost predicate WrittenRight(log: seq<Entry>, autoApprove: bool) {
    forall k :: 0 <= k < |log| && log[k].User? ==>
      && log[k].mode == InForce(log[..k], autoApprove)
      && (log[k].msg.member ==> log[k].mode == Default)
      && (!log[k].msg.member ==> (log[k].mode == BypassPermissions <==> autoApprove))
  }

  /** Every change on its way: the last thing sent, for a mode not in force, and the one that its message calls for. */
  ghost predicate AskedRight(s: State, autoApprove: bool) {
    forall i :: 0 <= i < |s.requests| ==>
      && i == 0 && s.log != [] && s.log[|s.log| - 1] == Control(s.requests[i].mode)
      && s.requests[i].mode != InForce(s.log[..|s.log| - 1], autoApprove)
      && (s.requests[i].item.member ==> s.requests[i].mode == Default)
      && (!s.requests[i].item.member ==> (s.requests[i].mode == BypassPermissions <==> autoApprove))
  }

  lemma ModesAreRight(s: State, autoApprove: bool)
    requires Inv(s, autoApprove) && Told(s, autoApprove)
    ensures WrittenRight(s.log, autoApprove) && AskedRight(s, autoApprove)
  {
  }

  /**
   * Over every run: what is written for a member runs under the default mode, what is written for an owner
   * bypasses permissions iff auto-approval is on, and the mode is the one that the control requests sent
   * before it, less the refused ones, have put in force; a mode is asked for only when it is not in force,
   * and is the right one for the message that waits for it.
   */
  lemma EveryMessageRunsUnderItsMode(events: seq<Event>, autoApprove: bool)
    ensures WrittenRight(Run(events, autoApprove).log, autoApprove)
    ensures AskedRight(Run(events, autoApprove), autoApprove)
  {
    EveryRunTells(events, autoApprove);
    EveryRunIsSerial(events, autoApprove);
    ModesAreRight(Run(events, autoApprove), autoApprove);
  }

  lemma {:induction false} ReadySeen(events: seq<Event>, autoApprove: bool)
    ensures Run(events, autoApprove).sawInit <==> Ready in events
  {
    if events != [] {
      var before, e := events[..|events| - 1], events[|events| - 1];
      ReadySeen(before, autoApprove);
      OnlyReadyIsSeen(Run(before, autoApprove), e, autoApprove);
      assert events == before + [e];
    }
  }

  lemma OnlyReadyIsSeen(s: State, e: Event, autoApprove: bool)
    ensures Step(s, e, autoApprove).sawInit <==> s.sawInit || e == Ready
  {
  }

  /** A member's message is taken iff the gate is open, the process is ready and all that came before is over. */
  lemma MemberTakenIff(events: seq<Event>, m: Message, gateOpen: bool, autoApprove: bool)
    requires m.member
    ensures var s := Run(events, autoApprove);
            Push(s, m, gateOpen, autoApprove).1 <==>
              gateOpen && Ready in events && Arrived(events, autoApprove) == Handled(s.log) && !Open(s.log)
  {
    var s := Run(events, autoApprove);
    EveryRunIsSerial(events, autoApprove);
    ReadySeen(events, autoApprove);
    assert |Arrived(events, autoApprove)| == |Handled(s.log)| + |Awaiting(s)| + |s.queue|;
    if s.queue == [] && !s.switching {
      assert Awaiting(s) == [];
    }
  }

  /** A member is let in only to an idle writer, so its turn starts at once. */
  lemma MembersNeverQueue(events: seq<Event>, m: Message, gateOpen: bool, autoApprove: bool)
    requires m.member
    ensures var s := Run(events, autoApprove);
            var (t, ok) := Push(s, m, gateOpen, autoApprove);
            ok ==> !Busy(s) && (t.inflight == Some(m) || (t.switching && t.requests[0].item == m))
  {
    EveryRunIsSerial(events, autoApprove);
  }

  /* ---------- the writer as it is written ---------- */

  /** The message is the one outstanding: written and open, or waiting for its mode. */
  predicate Outstanding(s: State, m: Message) {
    s.inflight == Some(m) || (s.switching && s.requests != [] && s.requests[0].item == m)
  }

  /** Nothing is outstanding: the next message may go out. */
  ghost predicate Idle(s: State, autoApprove: bool) {
    && s.inflight.None? && s.timings == 0 && !s.switching && s.requests == []
    && !Open(s.log) && Serial(s.log, autoApprove) && OwnersOnly(s.queue)
  }

  /** What a member needs to be let in. */
  predicate LetsIn(s: State, m: Message, gateOpen: bool) {
    !m.member || (gateOpen && s.sawInit && s.inflight.None? && !s.switching && s.queue == [])
  }

  /** Written at once iff the mode in force is right for the message; otherwise the right mode is asked for. */
  ghost predicate SentRight(s: State, t: State, m: Message, autoApprove: bool) {
    exists mode :: RightMode(m, mode, autoApprove) &&
      t.log == s.log + [if s.mode == mode then User(m, mode) else Control(mode)]
  }

  lemma SendMeans(s: State, m: Message, autoApprove: bool)
    requires Idle(s, autoApprove)
    ensures var t := Send(s, m, autoApprove);
            Inv(t, autoApprove) && Outstanding(t, m) && t.queue == s.queue && SentRight(s, t, m, autoApprove)
  {
    SendKeeps(s, m, autoApprove);
    assert RightMode(m, ModeFor(m, autoApprove), autoApprove);
  }

  lemma DrainMeans(s: State, autoApprove: bool)
    requires Idle(s, autoApprove)
    ensures var t := Drain(s, autoApprove);
            Inv(t, autoApprove) && s.log <= t.log && InOrder(t, Handled(s.log) + s.queue) &&
            (if s.queue == [] then t == s else Outstanding(t, s.queue[0]) && t.queue == s.queue[1..])
  {
    DrainKeeps(s, autoApprove);
    if s.queue != [] {
      assert OwnersOnly(s.queue[1..]);
      SendMeans(s.(queue := s.queue[1..], pin := None), s.queue[0], autoApprove);
    }
  }

  lemma PushMeans(s: State, m: Message, gateOpen: bool, autoApprove: bool)
    requires Inv(s, autoApprove)
    ensures var (t, ok) := Push(s, m, gateOpen, autoApprove);
            && (ok <==> LetsIn(s, m, gateOpen))
            && (ok && !Busy(s) ==> Outstanding(t, m) && t.queue == [])
            && (ok && Busy(s) ==> t == s.(queue := s.queue + [m]))
            && (!ok ==> t == s)
  {
    if !Busy(s) && LetsIn(s, m, gateOpen) {
      SendMeans(s, m, autoApprove);
    }
  }

  /** A confirmed change writes the message that waited, under its own mode. */
  lemma AckMeans(s: State, i: nat, autoApprove: bool)
    requires Inv(s, autoApprove) && i < |s.requests|
    ensures var t, r := Ack(s, i, autoApprove), s.requests[0];
            t.inflight == Some(r.item) && t.log == s.log + [User(r.item, r.mode)] && t.requests == [] &&
              t.queue == s.queue && RightMode(r.item, r.mode, autoApprove)
  {
    SettledIsIdle(s, i, autoApprove);
    PinNeverMoves(s, i, autoApprove);
  }

  /** A refused one blocks that message for good and gives the next its turn. */
  lemma NackMeans(s: State, i: nat, autoApprove: bool)
    requires Inv(s, autoApprove) && i < |s.requests|
    ensures var t, m := Nack(s, i, autoApprove), s.requests[0].item;
            s.log + [Blocked(m)] <= t.log &&
            (if s.queue == [] then t.log == s.log + [Blocked(m)] && !Busy(t)
              else Outstanding(t, s.queue[0]) && t.queue == s.queue[1..])
  {
    SettledIsIdle(s, i, autoApprove);
    LogGrows(s.log, Blocked(s.requests[i].item), autoApprove);
    DrainMeans(Settled(s, i).(log := s.log + [Blocked(s.requests[i].item)]), autoApprove);
  }

  /** The end of a turn closes the open message and gives the next its turn. */
  lemma CloseMeans(s: State, autoApprove: bool)
    requires Inv(s, autoApprove)
    ensures var t := Close(s, autoApprove);
            if s.inflight.None? then t == s
            else s.log + [Closed] <= t.log &&
                 (if s.queue == [] then t.log == s.log + [Closed] && !Busy(t)
                   else Outstanding(t, s.queue[0]) && t.queue == s.queue[1..])
  {
    if s.inflight.None? {
      assert Ended(s) == s;
    } else {
      LogGrows(s.log, Closed, autoApprove);
      DrainMeans(Ended(s), autoApprove);
    }
  }

  class ClaudeWriter {
    const autoApprove: bool
    var claudeWriteQueue: seq<Message>
    var claudeInflight: Option<Message>
    var claudeTimings: nat
    var claudeModeSwitching: bool
    var claudeControlRequests: seq<Request>
    var claudeModePin: Option<Mode>
    var claudePermissionMode: Mode
    var claudeSawInit: bool
    /** The process's stdin and what is reported beside it. */
    var log: seq<Entry>
    /** The messages taken since creation, in order of arrival. */
    ghost var arrived: seq<Message>

    /** Serial so far, and everything that arrived was handled, waits for its mode, or is queued, in order. */
    ghost predicate Valid()
      reads this
    {
      Inv(View(), autoApprove) && InOrder(View(), arrived)
    }

    constructor (autoApprove: bool)
      ensures Valid() && this.autoApprove == autoApprove && View() == Start(autoApprove) && arrived == []
    {
      this.autoApprove := autoApprove;
      claudeWriteQueue, claudeInflight, claudeTimings, claudeModeSwitching := [], None, 0, false;
      claudeControlRequests, claudeModePin, claudeSawInit, log := [], None, false, [];
      claudePermissionMode := if autoApprove then BypassPermissions else Default;
      arrived := [];
    }

    function View(): State
      reads this
    {
      State(claudeWriteQueue, claudeInflight, claudeTimings, claudeModeSwitching, claudeControlRequests, claudeModePin,
            claudePermissionMode, claudeSawInit, log)
    }

    method WriteClaudeMessage(m: Message)
      modifies this
      ensures View() == Write(old(View()), m) && arrived == old(arrived)
    {
      if claudeModePin.None? {
        claudeModePin := Some(ModeFor(m, autoApprove));
      }
      claudeTimings := claudeTimings + 1;
      claudeInflight := Some(m);
      claudeModePin := None;
      log := log + [User(m, claudePermissionMode)];
    }

    /** From an idle writer: the message becomes the outstanding one, and no mode but its own is used for it. */
    method SendClaudeMessage(m: Message)
      modifies this
      ensures View() == Send(old(View()), m, autoApprove) && arrived == old(arrived)
      ensures old(Idle(View(), autoApprove)) ==>
                Inv(View(), autoApprove) && Outstanding(View(), m) && claudeWriteQueue == old(claudeWriteQueue) &&
                SentRight(old(View()), View(), m, autoApprove)
    {
      ghost var s := View();
      var nextMode := ModeFor(m, autoApprove);
      claudeModePin := Some(nextMode);
      if nextMode != claudePermissionMode {
        claudeModeSwitching := true;
        claudeControlRequests := claudeControlRequests + [Request(m, nextMode)];
        log := log + [Control(nextMode)];
      } else {
        WriteClaudeMessage(m);
      }
      if Idle(s, autoApprove) {
        SendMeans(s, m, autoApprove);
      }
    }

    /** Nothing gets stuck: an idle writer makes the head of its queue the outstanding message. */
    method DrainClaudeWriteQueue()
      modifies this
      ensures View() == Drain(old(View()), autoApprove) && arrived == old(arrived)
      ensures old(Idle(View(), autoApprove)) && old(claudeWriteQueue) != [] ==>
                Inv(View(), autoApprove) && Outstanding(View(), old(claudeWriteQueue)[0]) &&
                  claudeWriteQueue == old(claudeWriteQueue)[1..]
    {
      ghost var s := View();
      if !claudeInflight.Some? && !claudeModeSwitching && claudeTimings == 0 && |claudeWriteQueue| > 0 {
        var next := claudeWriteQueue[0];
        claudeWriteQueue := claudeWriteQueue[1..];
        claudeModePin := None;
        SendClaudeMessage(next);
      }
      if Idle(s, autoApprove) {
        DrainMeans(s, autoApprove);
      }
    }

    /**
     * A message is taken unless it is a member's and the writer is not idle; an idle writer makes it
     * outstanding at once.
     */
    method PushUserMessage(m: Message, gateOpen: bool) returns (ok: bool)
      requires Valid()
      modifies this
      ensures Valid() && (View(), ok) == Push(old(View()), m, gateOpen, autoApprove)
      ensures ok <==> LetsIn(old(View()), m, gateOpen)
      ensures arrived == if ok then old(arrived) + [m] else old(arrived)
      ensures ok && !Busy(old(View())) ==> Outstanding(View(), m)
      ensures ok && Busy(old(View())) ==> log == old(log) && claudeWriteQueue == old(claudeWriteQueue) + [m]
    {
      ghost var s, t := View(), Push(View(), m, gateOpen, autoApprove);
      if m.member && !(gateOpen && claudeSawInit && claudeInflight.None? && !claudeModeSwitching &&
          |claudeWriteQueue| == 0) {
        ok := false;
      } else {
        if claudeInflight.Some? || claudeModeSwitching || claudeTimings > 0 {
          claudeWriteQueue := claudeWriteQueue + [m];
        } else {
          SendClaudeMessage(m);
        }
        arrived := arrived + [m];
        ok := true;
      }
      assert (View(), ok) == t;
      PushKeeps(s, m, gateOpen, old(arrived), autoApprove);
      PushMeans(s, m, gateOpen, autoApprove);
    }

    /** A confirmed mode change: the message that waited for it is written, and under its own mode. */
    method ModeConfirmed(i: nat)
      requires i < |claudeControlRequests|
      modifies this
      ensures View() == Ack(old(View()), i, autoApprove) && arrived == old(arrived)
      ensures old(Valid()) ==> Valid() && claudeControlRequests == [] && claudeWriteQueue == old(claudeWriteQueue)
      ensures old(Valid()) ==>
                var r := old(claudeControlRequests)[0];
                claudeInflight == Some(r.item) && log == old(log) + [User(r.item, r.mode)] &&
                RightMode(r.item, r.mode, autoApprove)
    {
      if Valid() {
        AckKeeps(View(), i, arrived, autoApprove);
        AckMeans(View(), i, autoApprove);
      }
      var r := claudeControlRequests[i];
      claudeControlRequests := claudeControlRequests[..i] + claudeControlRequests[i + 1..];
      if claudeModePin != Some(r.mode) {
        claudeModeSwitching := false;
        log := log + [Blocked(r.item)];
        DrainClaudeWriteQueue();
        return;
      }
      claudePermissionMode := r.mode;
      claudeModeSwitching := false;
      WriteClaudeMessage(r.item);
    }

    /** A mode change refused or timed out: its message is blocked, never written, and the next one gets its turn. */
    method ModeRefused(i: nat)
      requires Valid() && i < |claudeControlRequests|
      modifies this
      ensures Valid() && View() == Nack(old(View()), i, autoApprove) && arrived == old(arrived)
      ensures old(log) + [Blocked(old(claudeControlRequests)[0].item)] <= log
      ensures if old(claudeWriteQueue) == [] then !Busy(View())
              else Outstanding(View(), old(claudeWriteQueue)[0]) && claudeWriteQueue == old(claudeWriteQueue)[1..]
    {
      NackKeeps(View(), i, arrived, autoApprove);
      NackMeans(View(), i, autoApprove);
      var r := claudeControlRequests[i];
      claudeControlRequests := claudeControlRequests[..i] + claudeControlRequests[i + 1..];
      claudeModeSwitching := false;
      log := log + [Blocked(r.item)];
      DrainClaudeWriteQueue();
    }

    /** The `result` event of the process: the open message is closed and the next one gets its turn. */
    method OnResult()
      requires Valid()
      modifies this
      ensures Valid() && View() == Close(old(View()), autoApprove) && arrived == old(arrived)
      ensures old(claudeInflight).None? ==> View() == old(View())
      ensures old(claudeInflight).Some? ==>
                old(log) + [Closed] <= log &&
                if old(claudeWriteQueue) == [] then !Busy(View())
                else Outstanding(View(), old(claudeWriteQueue)[0]) && claudeWriteQueue == old(claudeWriteQueue)[1..]
    {
      CloseKeeps(View(), arrived, autoApprove);
      CloseMeans(View(), autoApprove);
      EndTurn();
      DrainClaudeWriteQueue();
    }

    method EndTurn()
      modifies this
      ensures View() == Ended(old(View())) && arrived == old(arrived)
    {
      if claudeInflight.Some? {
        log := log + [Closed];
      }
      claudeInflight := None;
      if claudeTimings > 0 {
        claudeTimings := claudeTimings - 1;
      }
    }

    /** The `init` event of the process. */
    method OnInit()
      requires Valid()
      modifies this
      ensures Valid() && View() == Step(old(View()), Ready, autoApprove) && arrived == old(arrived)
    {
      StepKeeps(View(), Ready, arrived, autoApprove);
      claudeSawInit := true;
    }

    /** One event of the outside. */
    method On(e: Event)
      requires Valid()
      modifies this
      ensures Valid() && View() == Step(old(View()), e, autoApprove)
      ensures arrived == ArrivedWith(old(View()), e, old(arrived), autoApprove)
    {
      match e {
        case Arrives(m, gateOpen) => var _ := PushUserMessage(m, gateOpen);
        case Acked(i) => if i < |claudeControlRequests| { ModeConfirmed(i); }
        case Nacked(i) => if i < |claudeControlRequests| { ModeRefused(i); }
        case TurnEnds => OnResult();
        case Ready => OnInit();
      }
    }
  }

  /** A whole life of the writer: serial, in arrival order, and the messages taken are those of the run. */
  method Live(autoApprove: bool, events: seq<Event>) returns (w: ClaudeWriter)
    ensures fresh(w) && w.Valid() && w.autoApprove == autoApprove
    ensures w.View() == Run(events, autoApprove) && w.arrived == Arrived(events, autoApprove)
    ensures WrittenRight(w.log, autoApprove) && AskedRight(w.View(), autoApprove)
  {
    w := new ClaudeWriter(autoApprove);
    for i := 0 to |events|
      invariant fresh(w) && w.Valid() && w.autoApprove == autoApprove
      invariant w.View() == Run(events[..i], autoApprove) && w.arrived == Arrived(events[..i], autoApprove)
    {
      assert events[..i + 1][..i] == events[..i];
      w.On(events[i]);
    }
    assert events[..|events|] == events;
    EveryMessageRunsUnderItsMode(events, autoApprove);
  }
}
