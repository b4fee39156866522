/**
 * What steers the custody of an agent: whether it is paused, stopped, draining, alive, and of which project
 * follows from the operations alone; so does where a message goes, and that a stopped runner gets none.
 */
module CustodyControl {
  import opened Common
  import opened Messages
  import opened KeyedFifo
  import opened InboundDedup
  import opened QueueRetained
  import opened Custody
  import opened CustodyLaws
  import opened CustodyOrder

  /* ---------- the history decides ---------- */

  /** What the host knows of an agent, apart from its messages. */
  datatype Control = Control(paused: bool, draining: bool, known: bool, parado: bool, live: bool,
    project: Option<string>)

  function ControlOf(b: Box): Control {
    Control(b.paused, b.draining, b.known, b.parado, b.runner.Some?, b.project)
  }

  /** Eight operations change it, each in one way; messages, keys, time and the runner's answers never do. */
  function After(c: Control, op: Op): Control {
    match op
    case DoPause(_) => c.(paused := true)
    case DoResume => c.(paused := false)
    case DoStop(_) => c.(parado := c.parado || c.live)
    case DoSpawn(paused, _, project, _) => Control(paused, c.draining, true, false, true, project)
    case DoReconnect(paused, _) => c.(paused := paused)
    case DoSpawnDone(_) => c.(parado := c.parado && !c.known)
    case DoStartDrain(_) => c.(draining := true)
    case RunnerExits => c.(live := false)
    case _ => c
  }

  function AfterAll(c: Control, ops: seq<Op>): Control {
    if ops == [] then c else After(AfterAll(c, ops[..|ops| - 1]), ops[|ops| - 1])
  }

  /** An agent with buffered messages is on the list of those that have some. */
  predicate Listed(b: Box) {
    b.buffer != [] ==> b.listed
  }

  /** The control after an operation is as told, and the list of buffers stays complete. */
  ghost predicate Steered(b: Box, c: Box, x: Control) {
    ControlOf(c) == x && (Listed(b) ==> Listed(c))
  }

  lemma SendSteers(b: Box, m: Msg, now: int, digest: Digest)
    ensures Steered(b, Send(b, m, now, digest).box, ControlOf(b))
  {
  }

  lemma DeliverSteers(b: Box, m: Msg, rings: Rings, now: int)
    ensures Steered(b, QueueDeliver(b, m, rings, now).0.box, ControlOf(b))
  {
    if b.runner.Some? {
      ToldSteady(b.(runner := Some(PushTo(b.runner.value, m).0)), Calls(b.runner.value, m), rings, now);
    }
  }

  lemma TakeSteers(b: Box, now: int)
    ensures Steered(b, TakeToPause(b, now).box, ControlOf(b))
  {
  }

  lemma LiberarSteers(b: Box)
    ensures Steered(b, Liberar(b).box, ControlOf(b))
  {
  }

  lemma FlushBufferSteers(b: Box, fromSpool: seq<Item>, rings: Rings, now: int)
    ensures Steered(b, FlushBuffer(b, fromSpool, rings, now).box, ControlOf(b))
  {
    var c := b.(buffer := [], listed := false);
    LiberarSteers(c);
    PushBufferSteady(Liberar(c).box, Loads(Fresh(b.buffer, now - INBOUND_TTL_MS)), rings, now);
  }

  lemma FlushSteers(b: Box, rings: Rings, now: int)
    ensures Steered(b, Flush(b, rings, now).box, ControlOf(b))
  {
    var (spool, held) := DeliverSpool(b, rings, now);
    FlushBufferSteers(spool.box, held, rings, now);
  }

  lemma HookSteers(b: Box, rings: Rings, now: int)
    ensures Steered(b, QueueChanged(b, rings, now).box, ControlOf(b))
  {
    QueueChangedSteady(b, rings, now);
  }

  lemma RetainSteers(b: Box, source: Source, now: int, digest: Digest)
    ensures Steered(b, RetainQueue(b, source, now, digest).box, ControlOf(b))
  {
  }

  lemma KillSteers(b: Box)
    ensures Steered(b, KillTurn(b).box, ControlOf(b))
  {
  }

  lemma StopSteers(b: Box, now: int, digest: Digest)
    ensures Steered(b, Stop(b, now, digest).box, ControlOf(b).(parado := b.parado || b.runner.Some?))
  {
    KillSteers(b.(parado := true));
    RetainSteers(KillTurn(b.(parado := true)).box, FromStop, now, digest);
  }

  lemma SpawnSteers(b: Box, paused: bool, r: Runner, project: Option<string>, now: int, digest: Digest)
    ensures Steered(b, Spawn(b, paused, r, project, now, digest).box,
                    Control(paused, b.draining, true, false, true, project))
  {
    KillSteers(b.(paused := paused));
    RetainSteers(KillTurn(b.(paused := paused)).box, Replace, now, digest);
  }

  lemma ReconnectSteers(b: Box, paused: bool, now: int)
    ensures Steered(b, Reconnect(b, paused, now).box, ControlOf(b).(paused := paused))
  {
    TakeSteers(b.(paused := paused), now);
    LiberarSteers(b.(paused := paused));
  }

  lemma RemoveSteers(b: Box, q: nat, i: nat, d: nat, p: nat)
    ensures Steered(b, RemoveAt(b, q, i, d, p).box, ControlOf(b))
  {
  }

  lemma DrainSteers(b: Box, now: int)
    ensures Steered(b, StartDrain(b, now).box, ControlOf(b).(draining := true))
    ensures Steered(b, HoldInFlight(b, now).box, ControlOf(b))
  {
  }

  lemma TurnSteers(b: Box)
    ensures Steered(b, StartTurn(b).box, ControlOf(b)) && Steered(b, FinishTurn(b).box, ControlOf(b))
  {
  }

  lemma ExitSteers(b: Box)
    ensures Steered(b, Exit(b).box, ControlOf(b).(live := false))
  {
  }

  lemma ChangeSteers(b: Box, accepts: nat -> bool, blocked: nat -> bool, tells: nat -> nat)
    ensures Steered(b, ChangeRunner(b, accepts, blocked, tells).box, ControlOf(b))
  {
  }

  lemma TimeSteers(b: Box, now: int)
    ensures Steered(b, ExpireRetained(b, now).box, ControlOf(b)) && Steered(b, ExpireBuffer(b, now).box, ControlOf(b))
    ensures Steered(b, Forget(b).box, ControlOf(b))
  {
  }

  lemma HostOpSteers(b: Box, op: Op, env: Env)
    requires op.DoSend? || op.DoQueueDeliver? || op.DoPause? || op.DoResume? || op.DoFlush? || op.DoStop? || op.DoSpawn?
    ensures Steered(b, Step(b, op, env).box, After(ControlOf(b), op))
  {
    match op
    case DoSend(m, now) => SendSteers(b, m, now, env.digest);
    case DoQueueDeliver(m, now) => DeliverSteers(b, m, env.rings, now);
    case DoPause(now) => TakeSteers(b.(paused := true), now);
    case DoResume => LiberarSteers(b.(paused := false));
    case DoFlush(now) => FlushSteers(b, env.rings, now);
    case DoStop(now) => StopSteers(b, now, env.digest);
    case DoSpawn(paused, r, project, now) => SpawnSteers(b, paused, r, project, now, env.digest);
  }

  lemma StartOpSteers(b: Box, op: Op, env: Env)
    requires op.DoReconnect? || op.DoSpawnDone? || op.DoQueueChanged? || op.DoRemove?
    ensures Steered(b, Step(b, op, env).box, After(ControlOf(b), op))
  {
    match op
    case DoReconnect(paused, now) => ReconnectSteers(b, paused, now);
    case DoSpawnDone(now) => FlushSteers(Started(b), env.rings, now);
    case DoQueueChanged(now) => HookSteers(b, env.rings, now);
    case DoRemove(id) =>
      RemoveSteers(b, FirstWithId(QueueOf(b), id), FirstWithId(Loads(b.buffer), id),
        FirstWithId(Loads(b.drainHeld), id), FirstWithId(Loads(b.pauseHeld), id));
  }

  lemma EndOpSteers(b: Box, op: Op, env: Env)
    requires op.DoForget? || op.RetainedExpires? || op.BufferExpires?
    ensures Steered(b, Step(b, op, env).box, After(ControlOf(b), op))
  {
    match op
    case DoForget => TimeSteers(b, 0);
    case RetainedExpires(now) => TimeSteers(b, now);
    case BufferExpires(now) => TimeSteers(b, now);
  }

  lemma DrainOpSteers(b: Box, op: Op, env: Env)
    requires op.DoStartDrain? || op.DoHoldInFlight?
    ensures Steered(b, Step(b, op, env).box, After(ControlOf(b), op))
  {
    DrainSteers(b, op.now);
  }

  predicate IsRunners(op: Op) {
    op.RunnerRetains? || op.RunnerStarts? || op.RunnerFinishes? || op.RunnerExits? || op.RunnerChanges?
  }

  lemma RunnerOpSteers(b: Box, op: Op, env: Env)
    requires IsRunners(op)
    ensures Steered(b, Step(b, op, env).box, After(ControlOf(b), op))
  {
    match op
    case RunnerRetains(source, now) => RetainSteers(b, source, now, env.digest);
    case RunnerStarts => TurnSteers(b);
    case RunnerFinishes => TurnSteers(b);
    case RunnerExits => ExitSteers(b);
    case RunnerChanges(accepts, blocked, tells) => ChangeSteers(b, accepts, blocked, tells);
  }

  lemma StepSteers(b: Box, op: Op, env: Env)
    ensures Steered(b, Step(b, op, env).box, After(ControlOf(b), op))
  {
    if op.DoForget? || op.RetainedExpires? || op.BufferExpires? {
      EndOpSteers(b, op, env);
    } else if op.DoStartDrain? || op.DoHoldInFlight? {
      DrainOpSteers(b, op, env);
    } else if IsRunners(op) {
      RunnerOpSteers(b, op, env);
    } else if op.DoReconnect? || op.DoSpawnDone? || op.DoQueueChanged? || op.DoRemove? {
      StartOpSteers(b, op, env);
    } else {
      HostOpSteers(b, op, env);
    }
  }

  /**
   * Over every run, whatever messages come, keys are held, time passes and runners answer: the agent is paused,
   * draining, known, stopped, alive and of a project exactly as the operations say, and a buffer is never
   * forgotten.
   */
  lemma {:induction false} HistoryDecides(b: Box, ops: seq<Op>, env: Env)
    ensures ControlOf(RunOps(b, ops, env).box) == AfterAll(ControlOf(b), ops)
    ensures Listed(b) ==> Listed(RunOps(b, ops, env).box)
  {
    if ops != [] {
      var init, last := ops[..|ops| - 1], ops[|ops| - 1];
      HistoryDecides(b, init, env);
      StepSteers(RunOps(b, init, env).box, last, env);
    }
  }

  /* ---------- a stopped agent ---------- */

  /** What neither starts the agent nor hands its runner what the server or the spool brings. */
  predicate LeavesStopped(op: Op) {
    !(op.DoSpawn? || op.DoSpawnDone? || op.DoQueueDeliver? || op.DoFlush? || op.DoQueueChanged?)
  }

  lemma StoppedStep(b: Box, op: Op, env: Env)
    requires b.parado && LeavesStopped(op)
    ensures Step(b, op, env).pushed == [] && Step(b, op, env).box.parado
  {
    StepSteers(b, op, env);
    if !AsksRunner(op) {
      SilentOps(b, op, env);
    } else {
      match op
      case DoSend(m, now) => assert Send(b, m, now, env.digest).pushed == [];
      case DoResume => assert Liberar(b.(paused := false)).pushed == [];
      case DoReconnect(paused, now) => SilentReconnect(b, paused, now);
    }
  }

  lemma SilentReconnect(b: Box, paused: bool, now: int)
    requires b.parado
    ensures Reconnect(b, paused, now).pushed == []
  {
  }

  /** Stopping an agent that has a runner stops it: until it is started, no operation of the host's own pushes. */
  lemma {:induction false} StoppedIsLeftAlone(b: Box, t: int, ops: seq<Op>, env: Env)
    requires b.runner.Some? && forall i :: 0 <= i < |ops| ==> LeavesStopped(ops[i])
    ensures var o := RunOps(b, [DoStop(t)] + ops, env); o.pushed == [] && o.box.parado
  {
    var all := [DoStop(t)] + ops;
    if ops == [] {
      assert all[..|all| - 1] == [] && all[|all| - 1] == DoStop(t);
      assert RunOps(b, all[..|all| - 1], env) == Quiet(b);
      SilentOps(b, DoStop(t), env);
      StepSteers(b, DoStop(t), env);
    } else {
      var init, last := ops[..|ops| - 1], ops[|ops| - 1];
      assert all[..|all| - 1] == [DoStop(t)] + init && all[|all| - 1] == last;
      StoppedIsLeftAlone(b, t, init, env);
      StoppedStep(RunOps(b, [DoStop(t)] + init, env).box, last, env);
    }
  }

  /** Stopped, with a runner that has neither a queue nor a turn. */
  predicate StoppedNow(b: Box) {
    b.runner.Some? && b.parado && QueueOf(b) == [] && InFlightOf(b) == []
  }

  lemma StopStops(b: Box, now: int, digest: Digest)
    requires b.runner.Some?
    ensures StoppedNow(Stop(b, now, digest).box)
  {
  }

  /** Both are the same delivery: the same real id, or no id and the same digest of source and text. */
  predicate SameDelivery(x: Item, y: Item, digest: Digest) {
    if HasId(y.msg.id) then x.msg.id == y.msg.id
    else !HasId(x.msg.id) && digest(x.source, x.msg.content) == digest(y.source, y.msg.content)
  }

  ghost predicate HasDelivery(itens: seq<Item>, y: Item, digest: Digest) {
    exists i :: 0 <= i < |itens| && SameDelivery(itens[i], y, digest)
  }

  /** One item retained: turned away if the delivery is there already, else the newest of at most 200. */
  lemma OneRetained(itens: seq<Item>, x: Item, digest: Digest)
    ensures Retained(itens, [x], digest) ==
            if HasDelivery(itens, x, digest) then itens else LastN(itens + [x], 200)
  {
    var key := Chave(digest);
    assert [x][..|[x]| - 1] == [];
    assert Run(itens, [], CAP_POR_AGENTE, key) == itens;
    forall i | 0 <= i < |itens| ensures Keys(itens, key)[i] == key(x) <==> SameDelivery(itens[i], x, digest) {
    }
    if HasDelivery(itens, x, digest) {
      var i :| 0 <= i < |itens| && SameDelivery(itens[i], x, digest);
      assert Keys(itens, key)[i] == key(x);
    }
  }

  /**
   * A message to a stopped agent, not paused, not draining and with nothing in the spool: a member's is turned
   * away, an owner's waits in the retained queue as its newest, unless the delivery waits there already.
   */
  lemma StoppedSend(b: Box, m: Msg, now: int, digest: Digest)
    requires b.parado && b.runner.Some? && !b.paused && !b.draining && b.spooled == []
    ensures var o := Send(b, m, now, digest);
            if m.member then o == Outcome(b, [m], [Gone(GateRejected, m)], [])
            else o.pushed == [] && o.box == b.(retained := o.box.retained) && RetainedLast(b, o.box, m, now, digest)
  {
    if !m.member {
      OneRetained(Vivos(b.retained, now), Item(m, now, Inbound, false, false), digest);
      assert m.(member := false) == m;
    }
  }

  ghost predicate RetainedLast(b: Box, c: Box, m: Msg, now: int, digest: Digest) {
    var live, item := Fresh(b.retained, now - 7 * 24 * 60 * 60 * 1000), Item(m, now, Inbound, false, false);
    if HasDelivery(live, item, digest) then c.retained == live else c.retained == LastN(live + [item], 200)
  }

  /** From the stop on: whatever was sent, paused and resumed meanwhile, the next message finds the agent stopped. */
  lemma StopHolds(b: Box, t: int, ops: seq<Op>, m: Msg, now: int, env: Env)
    requires b.runner.Some? && forall i :: 0 <= i < |ops| ==> LeavesStopped(ops[i])
    requires var c := RunOps(b, [DoStop(t)] + ops, env).box;
             c.runner.Some? && !c.paused && !c.draining && c.spooled == []
    ensures var c := RunOps(b, [DoStop(t)] + ops, env).box;
            var o := Send(c, m, now, env.digest);
            if m.member then o == Outcome(c, [m], [Gone(GateRejected, m)], [])
            else o.pushed == [] && o.box == c.(retained := o.box.retained) &&
                 RetainedLast(c, o.box, m, now, env.digest)
  {
    StoppedIsLeftAlone(b, t, ops, env);
    StoppedSend(RunOps(b, [DoStop(t)] + ops, env).box, m, now, env.digest);
  }

  /* ---------- where a message goes ---------- */

  ghost predicate Newest(items: seq<Item>, m: Msg) {
    items != [] && items[|items| - 1].msg == m
  }

  ghost predicate Covered(items: seq<Item>, m: Msg) {
    HasId(m.id) && CarriesId(items, m.id)
  }

  /** The answer that the runner has ready for its next push. */
  predicate WouldTake(r: Option<Runner>, m: Msg) {
    r.Some? && r.value.accepts(r.value.pushes) && !(m.member && r.value.blocked(r.value.pushes))
  }

  /** With the runner, at its own answer; nothing else changes. */
  ghost predicate PushedOnly(b: Box, o: Outcome, m: Msg) {
    var ok := WouldTake(b.runner, m);
    o.pushed == [Push(m, ok, false)] && o.box.(runner := b.runner) == b &&
    QueueOf(o.box) == if ok then QueueOf(b) + [m] else QueueOf(b)
  }

  /**
   * Behind what waits in that place, the newest `cap` of it all, unless another copy covers it; nothing is
   * pushed, no other place changes.
   */
  ghost predicate WaitsIn(b: Box, o: Outcome, place: seq<Item>, after: seq<Item>, c: Box, m: Msg, cap: nat) {
    && o.pushed == [] && o.box == c
    && ((Newest(after, m) && after == LastN(place + [after[|after| - 1]], cap)) ||
        (Covered(place, m) && after == place))
  }

  /** What turns a member's message away: anything but a free, started runner that takes members now. */
  predicate ShutToMembers(c: Control, at: Box) {
    c.draining || !c.live || at.spooled != [] || c.parado ||
    (at.runner.Some? && at.runner.value.blocked(at.runner.value.pushes))
  }

  /**
   * After any run, a message goes where the history of the agent says: into the pause queue while it is paused.
   * Else a member's is turned away or goes to the runner at once; an owner's goes into the drain queue while the
   * host drains; else into the buffer while the agent has no runner or an older spool; else into the retained
   * queue while it is stopped; and only else to the runner.
   */
  lemma SendLands(b: Box, ops: seq<Op>, m: Msg, now: int, env: Env)
    ensures var c, at := AfterAll(ControlOf(b), ops), RunOps(b, ops, env).box;
            Landed(c, at, m, now, env.digest, Send(at, m, now, env.digest))
  {
    HistoryDecides(b, ops, env);
    LandsNow(RunOps(b, ops, env).box, m, now, env.digest);
  }

  ghost predicate WaitsInPause(at: Box, o: Outcome, m: Msg) {
    && o.pushed == [] && o.box == at.(pauseHeld := o.box.pauseHeld) && Newest(o.box.pauseHeld, m)
    && o.box.pauseHeld == LastN(at.pauseHeld + [o.box.pauseHeld[|o.box.pauseHeld| - 1]], 200)
  }

  ghost predicate Landed(c: Control, at: Box, m: Msg, now: int, digest: Digest, o: Outcome) {
    if c.paused then WaitsInPause(at, o, m)
    else if m.member then
      if ShutToMembers(c, at) then o == Outcome(at, [m], [Gone(GateRejected, m)], []) else PushedOnly(at, o, m)
    else if c.draining then
      WaitsIn(at, o, at.drainHeld, o.box.drainHeld, at.(drainHeld := o.box.drainHeld), m, |at.drainHeld| + 1)
    else if !c.live || at.spooled != [] then
      WaitsIn(at, o, Fresh(at.buffer, now - 15 * 60 * 1000), o.box.buffer,
              at.(buffer := o.box.buffer, listed := true), m, 20)
    else if c.parado then
      o.pushed == [] && o.box == at.(retained := o.box.retained) && RetainedLast(at, o.box, m, now, digest)
    else PushedOnly(at, o, m)
  }

  lemma LandsNow(at: Box, m: Msg, now: int, digest: Digest)
    ensures Landed(ControlOf(at), at, m, now, digest, Send(at, m, now, digest))
  {
    if at.paused {
      LandsInPause(at, m, now, digest);
    } else if m.member {
      if !ShutToMembers(ControlOf(at), at) {
        assert at.(runner := Some(at.runner.value)) == at;
      }
    } else if at.draining {
      LandsInDrain(at, m, now, digest);
    } else if at.runner.None? || at.spooled != [] {
      LandsInBuffer(at, m, now, digest);
    } else if at.parado {
      StoppedSend(at, m, now, digest);
    }
  }

  lemma LandsInPause(at: Box, m: Msg, now: int, digest: Digest)
    requires at.paused
    ensures WaitsInPause(at, Send(at, m, now, digest), m)
  {
    var held := at.pauseHeld + [Plain(m, now)];
    assert held[|held| - 1] == Plain(m, now);
  }

  lemma LandsInDrain(at: Box, m: Msg, now: int, digest: Digest)
    requires !m.member && !at.paused && at.draining
    ensures var o := Send(at, m, now, digest);
            WaitsIn(at, o, at.drainHeld, o.box.drainHeld, at.(drainHeld := o.box.drainHeld), m, |at.drainHeld| + 1)
  {
  }

  lemma LandsInBuffer(at: Box, m: Msg, now: int, digest: Digest)
    requires !m.member && !at.paused && !at.draining && (at.runner.None? || at.spooled != [])
    ensures var o := Send(at, m, now, digest);
            WaitsIn(at, o, Fresh(at.buffer, now - 15 * 60 * 1000), o.box.buffer,
                    at.(buffer := o.box.buffer, listed := true), m, 20)
  {
    assert m.(member := false) == m;
    var live, item := Fresh(at.buffer, now - INBOUND_TTL_MS), StampArrival(Plain(m, now), now);
    assert (live + [item])[|live|] == item;
  }

  /** A start with nothing left to wait for opens the agent again: the next message of an owner is pushed. */
  lemma RestartedSendIsPushed(b: Box, ops: seq<Op>, t: int, m: Msg, now: int, env: Env)
    requires !m.member
    requires var c := AfterAll(ControlOf(b), ops + [DoSpawnDone(t)]); c.known && c.live && !c.paused && !c.draining
    requires RunOps(b, ops + [DoSpawnDone(t)], env).box.spooled == []
    ensures var at := RunOps(b, ops + [DoSpawnDone(t)], env).box; PushedOnly(at, Send(at, m, now, env.digest), m)
  {
    var all := ops + [DoSpawnDone(t)];
    assert all[..|all| - 1] == ops && all[|all| - 1] == DoSpawnDone(t);
    SendLands(b, all, m, now, env);
  }

  /** The server is answered yes exactly by a paused agent with a runner, or by the runner itself. */
  lemma DeliveryAckedIff(b: Box, ops: seq<Op>, m: Msg, now: int, env: Env)
    ensures var c, at := AfterAll(ControlOf(b), ops), RunOps(b, ops, env).box;
            QueueDeliver(at, m, env.rings, now).1 <==>
              c.live && (c.paused || WouldTake(at.runner, m))
  {
    HistoryDecides(b, ops, env);
  }

  /* ---------- where a dying runner's queue goes ---------- */

  /** No delivery among the new items is there already or comes twice, and there is room. */
  ghost predicate AllNew(itens: seq<Item>, novos: seq<Item>, digest: Digest) {
    && |itens| + |novos| <= 200
    && forall i :: 0 <= i < |novos| ==> !HasDelivery(itens + novos[..i], novos[i], digest)
  }

  lemma {:induction false} AllRetained(itens: seq<Item>, novos: seq<Item>, digest: Digest)
    requires AllNew(itens, novos, digest)
    ensures Retained(itens, novos, digest) == itens + novos
  {
    if novos == [] {
      assert itens + novos == itens;
    } else {
      var n := |novos| - 1;
      forall i | 0 <= i < n ensures !HasDelivery(itens + novos[..n][..i], novos[..n][i], digest) {
        assert novos[..n][..i] == novos[..i];
      }
      AllRetained(itens, novos[..n], digest);
      assert novos == novos[..n] + [novos[n]];
      RunAppend(itens, novos[..n], [novos[n]], CAP_POR_AGENTE, Chave(digest));
      OneRetained(itens + novos[..n], novos[n], digest);
      assert itens + novos[..n] + [novos[n]] == itens + novos;
    }
  }

  /** The messages behind what was still fresh in the retained queue, in order, of this moment. */
  ghost predicate RetainedBehind(live: seq<Item>, msgs: seq<Msg>, now: int, retained: seq<Item>) {
    && Loads(retained) == Loads(live) + msgs && |retained| == |live| + |msgs| && live <= retained
    && forall i :: |live| <= i < |retained| ==> retained[i].at == now
  }

  lemma QueueIsRetained(b: Box, source: Source, now: int, digest: Digest)
    requires QueueOf(b) != [] && AllNew(Vivos(b.retained, now), WithSource(QueueOf(b), now, source), digest)
    ensures var c := RetainQueue(b, source, now, digest).box;
            c == b.(runner := Some(b.runner.value.(queue := [])), retained := c.retained) &&
            RetainedBehind(Fresh(b.retained, now - 7 * 24 * 60 * 60 * 1000), QueueOf(b), now, c.retained)
  {
    var novos := WithSource(QueueOf(b), now, source);
    AllRetained(Vivos(b.retained, now), novos, digest);
    LoadsOfAppend(Vivos(b.retained, now), novos);
    assert Loads(novos) == QueueOf(b);
  }

  /** A stop puts the not-started queue, in order, behind the retained one; the turn in flight is killed. */
  lemma StopRetainsQueue(b: Box, now: int, digest: Digest)
    requires QueueOf(b) != [] && AllNew(Vivos(b.retained, now), WithSource(QueueOf(b), now, FromStop), digest)
    ensures var c := Stop(b, now, digest).box;
            c == b.(parado := true, runner := Some(b.runner.value.(queue := [], inFlight := None)),
                    retained := c.retained) &&
            RetainedBehind(Fresh(b.retained, now - 7 * 24 * 60 * 60 * 1000), QueueOf(b), now, c.retained)
  {
    var d := KillTurn(b.(parado := true)).box;
    assert QueueOf(d) == QueueOf(b);
    QueueIsRetained(d, FromStop, now, digest);
  }

  /** The state in which a spawn retains the old runner's queue. */
  lemma SpawnInTwo(b: Box, paused: bool, r: Runner, project: Option<string>, now: int, digest: Digest)
    returns (d: Box, e: Box)
    ensures d.(runner := b.runner) == b.(paused := paused) && QueueOf(d) == QueueOf(b)
    ensures e == RetainQueue(d, Replace, now, digest).box
    ensures Spawn(b, paused, r, project, now, digest).box == Replaced(e, project, r)
  {
    d := KillTurn(b.(paused := paused)).box;
    e := RetainQueue(d, Replace, now, digest).box;
  }

  /** The box of `b` with the new runner in the agent's entry, but for the retained queue. */
  ghost predicate Renewed(b: Box, c: Box, paused: bool, r: Runner, project: Option<string>) {
    c == b.(paused := paused, known := true, parado := false, project := project, retained := c.retained,
            runner := Some(r.(queue := [], inFlight := None)))
  }

  /** A spawn does the same with the queue of the runner it replaces, and the new one starts empty. */
  lemma SpawnRetainsQueue(b: Box, paused: bool, r: Runner, project: Option<string>, now: int, digest: Digest)
    requires QueueOf(b) != [] && AllNew(Vivos(b.retained, now), WithSource(QueueOf(b), now, Replace), digest)
    ensures var c := Spawn(b, paused, r, project, now, digest).box;
            Renewed(b, c, paused, r, project) &&
            RetainedBehind(Fresh(b.retained, now - 7 * 24 * 60 * 60 * 1000), QueueOf(b), now, c.retained)
  {
    var d, e := SpawnInTwo(b, paused, r, project, now, digest);
    QueueIsRetained(d, Replace, now, digest);
    assert Replaced(e, project, r).retained == e.retained;
  }

  /** With nothing queued, neither touches the retained queue. */
  lemma NothingToRetain(b: Box, paused: bool, r: Runner, project: Option<string>, now: int, digest: Digest)
    requires QueueOf(b) == []
    ensures Stop(b, now, digest).box.retained == b.retained
    ensures var c := Spawn(b, paused, r, project, now, digest).box;
            Renewed(b, c, paused, r, project) && c.retained == b.retained
  {
    var d, e := SpawnInTwo(b, paused, r, project, now, digest);
    assert e == d;
  }

  /* ---------- what repeats another operation, or does nothing ---------- */

  /** A reconnection to a live runner is a pause of an agent not paused before, or a resume of a paused one. */
  lemma ReconnectRepeats(b: Box, now: int)
    requires b.runner.Some?
    ensures Reconnect(b, true, now) == Pause(b.(paused := false), now)
    ensures Reconnect(b, false, now) == Resume(b.(paused := true))
  {
    assert b.(paused := false).(paused := true) == b.(paused := true);
    assert b.(paused := true).(paused := false) == b.(paused := false);
  }

  /** Pausing twice, resuming what is not paused, stopping what does not run: nothing happens. */
  lemma RepeatedDoesNothing(b: Box, now: int, digest: Digest)
    ensures Pause(Pause(b, now).box, now) == Outcome(Pause(b, now).box, [], [], [])
    ensures b.paused ==> Pause(b, now) == Outcome(b, [], [], [])
    ensures !b.paused ==> Resume(b) == Outcome(b, [], [], [])
    ensures b.runner.None? ==> Stop(b, now, digest) == Outcome(b, [], [], [])
  {
    TakeSteers(b.(paused := true), now);
  }

  /** Turns start in the order of the queue, one at a time. */
  lemma TurnsStartInOrder(b: Box)
    ensures var c := StartTurn(b).box;
            && InFlightOf(c) + QueueOf(c) == InFlightOf(b) + QueueOf(b) && c.(runner := b.runner) == b
            && (QueueOf(c) == [] || InFlightOf(c) != [])
  {
    if QueueOf(b) != [] && InFlightOf(b) == [] {
      assert [QueueOf(b)[0]] + QueueOf(b)[1..] == QueueOf(b);
    } else if InFlightOf(b) == [] {
      assert QueueOf(b) == [];
    }
  }
}
