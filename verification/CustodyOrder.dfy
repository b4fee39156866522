/** What the custody operations promise about the runner: pauses are safe, order is kept, losses are pinned down. */
module CustodyOrder {
  import opened Common
  import opened Messages
  import opened InboundDedup
  import opened QueueRetained
  import opened Custody
  import opened CustodyLaws

  /* ---------- a paused agent is left alone ---------- */

  function PushCount(b: Box): nat {
    if b.runner.Some? then b.runner.value.pushes else 0
  }

  /** A runner that lives through the operation was asked exactly as often as the outcome says. */
  ghost predicate Counted(b: Box, o: Outcome) {
    b.runner.Some? && o.box.runner.Some? ==> PushCount(o.box) == PushCount(b) + |o.pushed|
  }

  lemma {:induction false} PushAllCounted(r: Runner, msgs: seq<Msg>)
    ensures PushAll(r, msgs).runner.pushes == r.pushes + |PushAll(r, msgs).pushed|
  {
    if msgs != [] {
      PushAllCounted(r, msgs[..|msgs| - 1]);
    }
  }

  lemma {:induction false} PushSpoolCounted(r: Runner, rs: seq<Record>, rings: Rings)
    ensures PushSpool(r, rs, rings).runner.pushes == r.pushes + |PushSpool(r, rs, rings).pushed|
    decreases |rs|
  {
    if rs != [] {
      match ReadRecord(rs[0], rings)
      case None => PushSpoolCounted(r, rs[1..], rings);
      case Some(m) => PushSpoolCounted(PushTo(r, m).0, rs[1..], rings);
    }
  }

  lemma DeliverSpoolCounted(b: Box, rings: Rings, now: int)
    ensures Counted(b, DeliverSpool(b, rings, now).0)
    ensures b.paused ==> DeliverSpool(b, rings, now).0.pushed == []
  {
    if b.runner.Some? {
      PushSpoolCounted(b.runner.value, b.spooled, rings);
    }
  }

  lemma LiberarCounted(b: Box)
    ensures Counted(b, Liberar(b)) && (b.paused ==> Liberar(b).pushed == [])
    ensures Liberar(b).box.runner.Some? == b.runner.Some? && Liberar(b).box.paused == b.paused
  {
    if b.runner.Some? {
      PushAllCounted(b.runner.value, Loads(b.pauseHeld));
    }
  }

  lemma QueueChangedCounted(b: Box, rings: Rings, now: int)
    ensures Counted(b, QueueChanged(b, rings, now)) && (b.paused ==> QueueChanged(b, rings, now).pushed == [])
  {
    DeliverSpoolCounted(b, rings, now);
  }

  lemma {:induction false} ToldCounted(b: Box, times: nat, rings: Rings, now: int)
    ensures Counted(b, Told(b, times, rings, now))
    decreases times
  {
    if times > 0 {
      ToldCounted(b, times - 1, rings, now);
      ToldSteady(b, times - 1, rings, now);
      QueueChangedCounted(Told(b, times - 1, rings, now).box, rings, now);
    }
  }

  lemma {:induction false} PushBufferCounted(b: Box, msgs: seq<Msg>, rings: Rings, now: int)
    requires b.runner.Some?
    ensures Counted(b, PushBuffer(b, msgs, rings, now))
    decreases |msgs|
  {
    if msgs != [] {
      var before, last := PushBuffer(b, msgs[..|msgs| - 1], rings, now), msgs[|msgs| - 1];
      PushBufferCounted(b, msgs[..|msgs| - 1], rings, now);
      PushBufferSteady(b, msgs[..|msgs| - 1], rings, now);
      ToldCounted(Tried(before.box, last).box, Calls(before.box.runner.value, last), rings, now);
      ToldSteady(Tried(before.box, last).box, Calls(before.box.runner.value, last), rings, now);
    }
  }

  lemma FlushBufferCounted(b: Box, fromSpool: seq<Item>, rings: Rings, now: int)
    ensures Counted(b, FlushBuffer(b, fromSpool, rings, now))
    ensures b.paused ==> FlushBuffer(b, fromSpool, rings, now).pushed == []
    ensures FlushBuffer(b, fromSpool, rings, now).box.paused == b.paused
  {
    var c := b.(buffer := [], listed := false);
    var freed, pending := Liberar(c), Loads(Fresh(b.buffer, now - INBOUND_TTL_MS));
    LiberarCounted(c);
    PushBufferSteady(freed.box, pending, rings, now);
    if freed.box.runner.Some? {
      PushBufferCounted(freed.box, pending, rings, now);
    }
  }

  lemma FlushCounted(b: Box, rings: Rings, now: int)
    ensures Counted(b, Flush(b, rings, now))
    ensures b.paused ==> Flush(b, rings, now).pushed == []
    ensures Flush(b, rings, now).box.paused == b.paused
  {
    var (spool, held) := DeliverSpool(b, rings, now);
    DeliverSpoolCounted(b, rings, now);
    FlushBufferCounted(spool.box, held, rings, now);
  }

  lemma SendCounted(b: Box, m: Msg, now: int, digest: Digest)
    ensures Counted(b, Send(b, m, now, digest))
    ensures Send(b, m, now, digest).box.paused == b.paused && (b.paused ==> Send(b, m, now, digest).pushed == [])
  {
  }

  lemma QueueDeliverCounted(b: Box, m: Msg, rings: Rings, now: int)
    ensures var o := QueueDeliver(b, m, rings, now).0;
            Counted(b, o) && o.box.paused == b.paused && (b.paused ==> o.pushed == [])
  {
    if b.runner.Some? {
      ToldCounted(Delivered(b, m).box, Calls(b.runner.value, m), rings, now);
      ToldSteady(Delivered(b, m).box, Calls(b.runner.value, m), rings, now);
    }
  }

  /** The operations that may end a pause. */
  predicate Unpauses(op: Op) {
    op.DoResume? || (op.DoSpawn? && !op.paused) || (op.DoReconnect? && !op.paused)
  }

  predicate AsksRunner(op: Op) {
    op.DoSend? || op.DoQueueDeliver? || op.DoResume? || op.DoFlush? || op.DoSpawnDone? || op.DoReconnect? ||
      op.DoQueueChanged?
  }

  lemma SilentOps(b: Box, op: Op, env: Env)
    requires !AsksRunner(op) && !op.DoSpawn?
    ensures Step(b, op, env).pushed == [] && Counted(b, Step(b, op, env))
    ensures b.paused ==> Step(b, op, env).box.paused
  {
    match op
    case DoPause(now) => SilentPause(b, now);
    case DoStop(now) => SilentStop(b, now, env.digest);
    case DoRemove(id) =>
      SilentRemove(b, FirstWithId(QueueOf(b), id), FirstWithId(Loads(b.buffer), id),
                   FirstWithId(Loads(b.drainHeld), id), FirstWithId(Loads(b.pauseHeld), id));
    case DoStartDrain(now) => SilentDrain(b, now);
    case DoHoldInFlight(now) => SilentDrain(b, now);
    case DoForget => SilentExpiry(b, 0);
    case RetainedExpires(now) => SilentExpiry(b, now);
    case BufferExpires(now) => SilentExpiry(b, now);
    case RunnerRetains(source, now) => SilentRetain(b, source, now, env.digest);
    case RunnerChanges(accepts, blocked, tells) => SilentChange(b, accepts, blocked, tells);
    case RunnerExits => SilentExit(b);
    case _ => SilentTurn(b);
  }

  ghost predicate Silent(b: Box, o: Outcome) {
    o.pushed == [] && Counted(b, o) && (b.paused ==> o.box.paused)
  }

  lemma SilentPause(b: Box, now: int)
    ensures Silent(b, Pause(b, now))
  {
  }

  lemma SilentStop(b: Box, now: int, digest: Digest)
    ensures Silent(b, Stop(b, now, digest))
  {
  }

  lemma SilentRemove(b: Box, q: nat, i: nat, d: nat, p: nat)
    ensures Silent(b, RemoveAt(b, q, i, d, p))
  {
  }

  lemma SilentDrain(b: Box, now: int)
    ensures Silent(b, StartDrain(b, now)) && Silent(b, HoldInFlight(b, now))
  {
  }

  lemma SilentExpiry(b: Box, now: int)
    ensures Silent(b, ExpireRetained(b, now)) && Silent(b, ExpireBuffer(b, now)) && Silent(b, Forget(b))
  {
  }

  lemma SilentRetain(b: Box, source: Source, now: int, digest: Digest)
    ensures Silent(b, RetainQueue(b, source, now, digest))
  {
  }

  lemma SilentChange(b: Box, accepts: nat -> bool, blocked: nat -> bool, tells: nat -> nat)
    ensures Silent(b, ChangeRunner(b, accepts, blocked, tells))
  {
  }

  lemma SilentTurn(b: Box)
    ensures Silent(b, StartTurn(b)) && Silent(b, FinishTurn(b))
  {
  }

  lemma SilentExit(b: Box)
    ensures Silent(b, Exit(b))
  {
  }

  lemma SpoolOpsCounted(b: Box, op: Op, env: Env)
    requires op.DoFlush? || op.DoSpawnDone? || op.DoQueueChanged?
    ensures Counted(b, Step(b, op, env))
  {
    if op.DoFlush? {
      FlushCounted(b, env.rings, op.now);
    } else if op.DoSpawnDone? {
      FlushCounted(if b.known then b.(parado := false) else b, env.rings, op.now);
    } else {
      DeliverSpoolCounted(b, env.rings, op.now);
    }
  }

  /** The recorded pushes are the pushes: a runner that survives counts exactly that many more. */
  lemma EveryPushIsRecorded(b: Box, op: Op, env: Env)
    requires !op.DoSpawn?
    ensures Counted(b, Step(b, op, env))
  {
    match op
    case DoSend(m, now) => SendCounted(b, m, now, env.digest);
    case DoQueueDeliver(m, now) => QueueDeliverCounted(b, m, env.rings, now);
    case DoResume => LiberarCounted(b.(paused := false));
    case DoFlush(_) => SpoolOpsCounted(b, op, env);
    case DoSpawnDone(_) => SpoolOpsCounted(b, op, env);
    case DoQueueChanged(_) => SpoolOpsCounted(b, op, env);
    case DoReconnect(paused, now) => LiberarCounted(b.(paused := paused));
    case _ => SilentOps(b, op, env);
  }

  /** While an agent is paused no operation hands its runner anything; only three can end the pause. */
  lemma PausedIsLeftAlone(b: Box, op: Op, env: Env)
    requires b.paused && !Unpauses(op)
    ensures Step(b, op, env).pushed == [] && Step(b, op, env).box.paused
  {
    match op
    case DoSend(m, now) => SendCounted(b, m, now, env.digest);
    case DoQueueDeliver(m, now) => QueueDeliverCounted(b, m, env.rings, now);
    case DoFlush(now) => FlushCounted(b, env.rings, now);
    case DoSpawnDone(now) => FlushCounted(if b.known then b.(parado := false) else b, env.rings, now);
    case DoQueueChanged(now) => DeliverSpoolCounted(b, env.rings, now);
    case DoReconnect(paused, now) =>
    case DoSpawn(_, _, _, _) =>
    case _ => SilentOps(b, op, env);
  }

  /** Whole runs: from a pause until something ends it, the runner hears nothing. */
  lemma {:induction false} NothingReachesAPausedRunner(b: Box, ops: seq<Op>, env: Env)
    requires b.paused && forall i :: 0 <= i < |ops| ==> !Unpauses(ops[i])
    ensures RunOps(b, ops, env).pushed == [] && RunOps(b, ops, env).box.paused
  {
    if ops != [] {
      var n := |ops| - 1;
      NothingReachesAPausedRunner(b, ops[..n], env);
      PausedIsLeftAlone(RunOps(b, ops[..n], env).box, ops[n], env);
    }
  }

  /* ---------- a pause keeps the order ---------- */

  /** Nothing but the runner's queue holds messages, and the agent runs. */
  ghost predicate Running(b: Box) {
    b.runner.Some? && !b.paused && !b.draining && !b.parado && b.spooled == [] && b.pauseHeld == []
  }

  function Sends(ms: seq<Msg>, now: int): seq<Op> {
    seq(|ms|, i requires 0 <= i < |ms| => DoSend(ms[i], now))
  }

  lemma RunOpsSplit(b: Box, ops: seq<Op>, op: Op, env: Env)
    ensures RunOps(b, ops + [op], env) == Then(RunOps(b, ops, env), Step(RunOps(b, ops, env).box, op, env))
  {
    assert (ops + [op])[..|ops|] == ops;
  }

  lemma LoadsOfLastN(items: seq<Item>, n: nat)
    ensures Loads(LastN(items, n)) == LastN(Loads(items), n)
  {
  }

  /** The agent of `b`, paused, with an empty runner queue. */
  function Resting(b: Box, held: seq<Item>): Box
    requires b.runner.Some?
  {
    b.(paused := true, runner := Some(b.runner.value.(queue := [])), pauseHeld := held)
  }

  lemma PausedNow(b: Box, now: int)
    requires Running(b)
    ensures var o := Pause(b, now);
            o.box == Resting(b, o.box.pauseHeld) && o.pushed == [] && o.entered == [] &&
            Loads(o.box.pauseHeld) == LastN(b.runner.value.queue, CAP_POR_AGENTE)
  {
    var q := b.runner.value.queue;
    if q != [] {
      LoadsOfStamp(q, now);
      assert Stamp(q, now) + [] == Stamp(q, now);
      LoadsOfLastN(Stamp(q, now), CAP_POR_AGENTE);
    } else {
      assert b.runner.value == b.runner.value.(queue := []);
    }
  }

  lemma PausedSend(c: Box, m: Msg, now: int, digest: Digest)
    requires c.paused
    ensures var o := Send(c, m, now, digest);
            o.box == c.(pauseHeld := o.box.pauseHeld) && o.pushed == [] && o.entered == [m] &&
            Loads(o.box.pauseHeld) == LastN(Loads(c.pauseHeld) + [m], CAP_POR_AGENTE)
  {
    LoadsOfAppend(c.pauseHeld, [Plain(m, now)]);
    LoadsOfLastN(c.pauseHeld + [Plain(m, now)], CAP_POR_AGENTE);
    assert Loads([Plain(m, now)]) == [m];
  }

  /** A pause and then arrivals. */
  function Script(t: int, ms: seq<Msg>, now: int): seq<Op> {
    [DoPause(t)] + Sends(ms, now)
  }

  lemma ScriptStep(b: Box, t: int, init: seq<Msg>, last: Msg, now: int, env: Env)
    ensures var before := RunOps(b, Script(t, init, now), env);
            RunOps(b, Script(t, init + [last], now), env) == Then(before, Send(before.box, last, now, env.digest))
  {
    assert Script(t, init + [last], now) == Script(t, init, now) + [DoSend(last, now)];
    RunOpsSplit(b, Script(t, init, now), DoSend(last, now), env);
  }

  lemma ScriptStart(b: Box, t: int, now: int, env: Env)
    ensures RunOps(b, Script(t, [], now), env) == Then(Quiet(b), Pause(b, t))
  {
    assert Script(t, [], now) == [] + [DoPause(t)];
    RunOpsSplit(b, [], DoPause(t), env);
  }

  /** What a paused agent holds after some arrivals: the newest of old queue and arrivals, in order. */
  ghost predicate AtRest(b: Box, o: Outcome, ms: seq<Msg>)
    requires b.runner.Some?
  {
    o.pushed == [] && o.entered == ms && o.box == Resting(b, o.box.pauseHeld) &&
    Loads(o.box.pauseHeld) == LastN(b.runner.value.queue + ms, CAP_POR_AGENTE)
  }

  lemma StillAtRest(b: Box, o: Outcome, ms: seq<Msg>, m: Msg, now: int, digest: Digest)
    requires b.runner.Some? && AtRest(b, o, ms)
    ensures AtRest(b, Then(o, Send(o.box, m, now, digest)), ms + [m])
  {
    PausedSend(o.box, m, now, digest);
    LastNOfAppend(b.runner.value.queue + ms, [m], CAP_POR_AGENTE);
    assert b.runner.value.queue + ms + [m] == b.runner.value.queue + (ms + [m]);
  }

  lemma RestsAtOnce(b: Box, t: int, now: int, env: Env)
    requires Running(b)
    ensures AtRest(b, RunOps(b, Script(t, [], now), env), [])
  {
    PausedNow(b, t);
    ScriptStart(b, t, now, env);
    assert b.runner.value.queue + [] == b.runner.value.queue;
  }

  lemma OneMoreArrival(b: Box, t: int, init: seq<Msg>, last: Msg, now: int, env: Env)
    requires Running(b) && AtRest(b, RunOps(b, Script(t, init, now), env), init)
    ensures AtRest(b, RunOps(b, Script(t, init + [last], now), env), init + [last])
  {
    ScriptStep(b, t, init, last, now, env);
    StillAtRest(b, RunOps(b, Script(t, init, now), env), init, last, now, env.digest);
  }

  lemma {:induction false} PausedArrivals(b: Box, t: int, ms: seq<Msg>, now: int, env: Env)
    requires Running(b)
    ensures AtRest(b, RunOps(b, Script(t, ms, now), env), ms)
    decreases |ms|
  {
    if ms == [] {
      RestsAtOnce(b, t, now, env);
    } else {
      var init, last := ms[..|ms| - 1], ms[|ms| - 1];
      assert init + [last] == ms;
      PausedArrivals(b, t, init, now, env);
      OneMoreArrival(b, t, init, last, now, env);
    }
  }

  /** The gate lets every one of these messages through. */
  ghost predicate Admitted(r: Runner, ms: seq<Msg>) {
    forall i :: 0 <= i < |ms| && ms[i].member ==> forall n: nat :: !r.blocked(n)
  }

  function Asked(pushed: seq<Push>): seq<Msg> {
    seq(|pushed|, i requires 0 <= i < |pushed| => pushed[i].msg)
  }

  lemma {:induction false} PushAllAsksAll(r: Runner, ms: seq<Msg>)
    requires Admitted(r, ms)
    ensures Asked(PushAll(r, ms).pushed) == ms
    ensures PushAll(r, ms).runner.blocked == r.blocked && PushAll(r, ms).runner.accepts == r.accepts
  {
    if ms != [] {
      var init, last := ms[..|ms| - 1], ms[|ms| - 1];
      PushAllAsksAll(r, init);
      assert ms == init + [last];
      var d := PushAll(r, init);
      assert last == ms[|ms| - 1];
      assert !Gated(d.runner, last);
      assert Asked(d.pushed + [Push(last, PushTo(d.runner, last).1, false)]) == Asked(d.pushed) + [last];
    }
  }

  lemma ResumeFromRest(b: Box, held: seq<Item>)
    requires Running(b)
    ensures var o, d := Resume(Resting(b, held)), PushAll(b.runner.value.(queue := []), Loads(held));
            o.pushed == d.pushed && o.entered == [] && o.box.pauseHeld == [] && !o.box.paused &&
              QueueOf(o.box) == d.runner.queue
  {
    if held == [] {
      assert Loads(held) == [];
    }
  }

  lemma AdmittedNewest(r: Runner, ms: seq<Msg>, n: nat)
    requires Admitted(r, ms)
    ensures Admitted(r, LastN(ms, n))
  {
    assert LastN(ms, n) == ms[|ms| - |LastN(ms, n)|..];
  }

  /**
   * Pause, arrivals, resume: the runner is offered the newest 200 of what it had and what came,
   * in order; it is offered all of it exactly when all of it fits.
   */
  lemma PauseIsTransparent(b: Box, t: int, ms: seq<Msg>, now: int, env: Env)
    requires Running(b) && Admitted(b.runner.value, b.runner.value.queue + ms)
    ensures var o, all := RunOps(b, Script(t, ms, now) + [DoResume], env), b.runner.value.queue + ms;
            Asked(o.pushed) == LastN(all, CAP_POR_AGENTE) &&
            (Asked(o.pushed) == all <==> |all| <= CAP_POR_AGENTE) &&
            o.box.pauseHeld == [] && !o.box.paused && o.entered == ms
  {
    var r, all := b.runner.value.(queue := []), b.runner.value.queue + ms;
    PausedArrivals(b, t, ms, now, env);
    RunOpsSplit(b, Script(t, ms, now), DoResume, env);
    AdmittedNewest(r, all, CAP_POR_AGENTE);
    ReleasedFromRest(b, RunOps(b, Script(t, ms, now), env), ms);
  }

  /** The end of the rest: what is held is offered, in order. */
  lemma ReleasedFromRest(b: Box, o: Outcome, ms: seq<Msg>)
    requires Running(b) && AtRest(b, o, ms) &&
             Admitted(b.runner.value.(queue := []), LastN(b.runner.value.queue + ms, CAP_POR_AGENTE))
    ensures var p := Then(o, Resume(o.box));
            Asked(p.pushed) == LastN(b.runner.value.queue + ms, CAP_POR_AGENTE) && p.box.pauseHeld == [] &&
              !p.box.paused && p.entered == ms
  {
    ResumeFromRest(b, o.box.pauseHeld);
    PushAllAsksAll(b.runner.value.(queue := []), Loads(o.box.pauseHeld));
    assert [] + Resume(o.box).pushed == Resume(o.box).pushed && ms + [] == ms;
  }

  lemma {:induction false} WillingRunnerTakesAll(r: Runner, ms: seq<Msg>)
    requires Admitted(r, ms) && forall n: nat :: r.accepts(n)
    ensures PushAll(r, ms).runner.queue == r.queue + ms
  {
    if ms == [] {
      assert r.queue + ms == r.queue;
    } else {
      var init, last := ms[..|ms| - 1], ms[|ms| - 1];
      PushAllAsksAll(r, init);
      WillingRunnerTakesAll(r, init);
      assert last == ms[|ms| - 1] && ms == init + [last];
    }
  }

  lemma SendsStep(b: Box, ms: seq<Msg>, now: int, env: Env)
    requires ms != []
    ensures var before := RunOps(b, Sends(ms[..|ms| - 1], now), env);
            RunOps(b, Sends(ms, now), env) == Then(before, Send(before.box, ms[|ms| - 1], now, env.digest))
  {
    var init, last := ms[..|ms| - 1], ms[|ms| - 1];
    assert Sends(ms, now) == Sends(init, now) + [DoSend(last, now)];
    RunOpsSplit(b, Sends(init, now), DoSend(last, now), env);
  }

  /** The agent of `b` after a willing runner took `ms`. */
  ghost predicate Served(b: Box, c: Box, ms: seq<Msg>) {
    && Running(b) && Running(c)
    && c.runner.value == b.runner.value.(queue := b.runner.value.queue + ms, pushes := c.runner.value.pushes)
  }

  lemma StillServed(b: Box, c: Box, ms: seq<Msg>, m: Msg, now: int, digest: Digest)
    requires Served(b, c, ms) && (m.member ==> forall n: nat :: !b.runner.value.blocked(n))
    requires forall n: nat :: b.runner.value.accepts(n)
    ensures Served(b, Send(c, m, now, digest).box, ms + [m])
  {
    assert b.runner.value.queue + ms + [m] == b.runner.value.queue + (ms + [m]);
  }

  lemma {:induction false} UnpausedArrivals(b: Box, ms: seq<Msg>, now: int, env: Env)
    requires Running(b) && Admitted(b.runner.value, ms) && forall n: nat :: b.runner.value.accepts(n)
    ensures Served(b, RunOps(b, Sends(ms, now), env).box, ms)
    decreases |ms|
  {
    if ms == [] {
      assert b.runner.value.queue + ms == b.runner.value.queue;
    } else {
      var init, last := ms[..|ms| - 1], ms[|ms| - 1];
      assert init + [last] == ms;
      UnpausedArrivals(b, init, now, env);
      SendsStep(b, ms, now, env);
      var c := RunOps(b, Sends(init, now), env).box;
      StillServed(b, c, init, last, now, env.digest);
      assert RunOps(b, Sends(ms, now), env).box == Send(c, last, now, env.digest).box;
    }
  }

  /** A willing runner cannot tell: with or without the pause it ends with the same queue, iff all fits. */
  lemma PausedRunEndsTheSame(b: Box, t: int, ms: seq<Msg>, now: int, env: Env)
    requires Running(b) && Admitted(b.runner.value, b.runner.value.queue + ms) &&
             forall n: nat :: b.runner.value.accepts(n)
    ensures QueueOf(RunOps(b, Script(t, ms, now) + [DoResume], env).box) == QueueOf(RunOps(b, Sends(ms, now), env).box)
            <==> |b.runner.value.queue + ms| <= CAP_POR_AGENTE
  {
    var r, all := b.runner.value.(queue := []), b.runner.value.queue + ms;
    assert Admitted(b.runner.value, ms) by {
      forall i | 0 <= i < |ms| && ms[i].member ensures forall n: nat :: !b.runner.value.blocked(n) {
        assert all[|b.runner.value.queue| + i] == ms[i];
      }
    }
    UnpausedArrivals(b, ms, now, env);
    PausedArrivals(b, t, ms, now, env);
    RunOpsSplit(b, Script(t, ms, now), DoResume, env);
    ResumeFromRest(b, RunOps(b, Script(t, ms, now), env).box.pauseHeld);
    AdmittedNewest(r, all, CAP_POR_AGENTE);
    WillingRunnerTakesAll(r, LastN(all, CAP_POR_AGENTE));
  }

  /* ---------- the spool keeps its order ---------- */

  /** The messages the runner took, of the spool or of all else, in order. */
  function Taken(pushed: seq<Push>, spooled: bool): seq<Msg> {
    if pushed == [] then []
    else
      var init, last := Taken(pushed[..|pushed| - 1], spooled), pushed[|pushed| - 1];
      if last.ok && last.spooled == spooled then init + [last.msg] else init
  }

  lemma {:induction false} TakenOfAppend(a: seq<Push>, b: seq<Push>, spooled: bool)
    ensures Taken(a + b, spooled) == Taken(a, spooled) + Taken(b, spooled)
  {
    if b == [] {
      assert a + b == a;
    } else {
      TakenOfAppend(a, b[..|b| - 1], spooled);
      assert (a + b)[..|a + b| - 1] == a + b[..|b| - 1];
    }
  }

  lemma TakenOfOne(p: Push, spooled: bool)
    ensures Taken([p], spooled) == if p.ok && p.spooled == spooled then [p.msg] else []
  {
    assert [p][..0] == [];
  }

  lemma ReadableOfCons(rs: seq<Record>, k: nat, rings: Rings)
    requires rs != [] && k < |rs|
    ensures Readable(rs[..k + 1], rings) ==
            (if ReadRecord(rs[0], rings).Some? then [ReadRecord(rs[0], rings).value] else []) +
              Readable(rs[1..][..k], rings)
  {
    assert rs[..k + 1][1..] == rs[1..][..k];
  }

  /**
   * One delivery: the runner's queue grows by exactly what is readable in a prefix of the spool, in
   * order; the rest stays, headed by a readable record the runner has just turned down.
   */
  ghost predicate Fifo(r: Runner, rs: seq<Record>, s: SpoolRun, rings: Rings) {
    && |s.rest| <= |rs| && s.rest == rs[|rs| - |s.rest|..]
    && s.runner.queue == r.queue + Readable(rs[..|rs| - |s.rest|], rings)
    && Taken(s.pushed, true) == Readable(rs[..|rs| - |s.rest|], rings) && Taken(s.pushed, false) == []
    && (s.rest != [] ==> && ReadRecord(s.rest[0], rings).Some?
                         && s.pushed != [] && s.pushed[|s.pushed| - 1] ==
                           Push(ReadRecord(s.rest[0], rings).value, false, true))
  }

  lemma FifoSkips(r: Runner, rs: seq<Record>, s: SpoolRun, gone: seq<Gone>, rings: Rings)
    requires rs != [] && ReadRecord(rs[0], rings).None? && Fifo(r, rs[1..], s, rings)
    ensures Fifo(r, rs, s.(gone := gone), rings)
  {
    ReadableOfCons(rs, |rs| - 1 - |s.rest|, rings);
    assert rs[1..][|rs| - 1 - |s.rest|..] == rs[|rs| - |s.rest|..];
    assert [] + Readable(rs[1..][..|rs| - 1 - |s.rest|], rings) == Readable(rs[..|rs| - |s.rest|], rings);
  }

  lemma FifoTakes(r: Runner, rs: seq<Record>, s: SpoolRun, m: Msg, rings: Rings)
    requires rs != [] && ReadRecord(rs[0], rings) == Some(m)
    requires Fifo(r.(queue := r.queue + [m]), rs[1..], s, rings)
    ensures Fifo(r, rs, s.(pushed := [Push(m, true, true)] + s.pushed), rings)
  {
    var k := |rs| - 1 - |s.rest|;
    ReadableOfCons(rs, k, rings);
    assert rs[1..][k..] == rs[k + 1..];
    assert r.queue + [m] + Readable(rs[1..][..k], rings) == r.queue + ([m] + Readable(rs[1..][..k], rings));
    TakenOfAppend([Push(m, true, true)], s.pushed, true);
    TakenOfAppend([Push(m, true, true)], s.pushed, false);
    TakenOfOne(Push(m, true, true), true);
    TakenOfOne(Push(m, true, true), false);
  }

  lemma {:induction false} SpoolIsFifo(r: Runner, rs: seq<Record>, rings: Rings)
    ensures Fifo(r, rs, PushSpool(r, rs, rings), rings)
    decreases |rs|
  {
    if rs == [] {
      assert r.queue + [] == r.queue;
    } else {
      match ReadRecord(rs[0], rings)
      case None =>
        SpoolIsFifo(r, rs[1..], rings);
        FifoSkips(r, rs, PushSpool(r, rs[1..], rings), PushSpool(r, rs, rings).gone, rings);
      case Some(m) =>
        var (r', ok) := PushTo(r, m);
        if ok {
          SpoolIsFifo(r', rs[1..], rings);
          FifoTakes(r, rs, PushSpool(r', rs[1..], rings), m, rings);
        } else {
          TakenOfOne(Push(m, false, true), true);
          TakenOfOne(Push(m, false, true), false);
          assert rs[..0] == [] && r.queue + [] == r.queue;
        }
    }
  }

  /** What one record contributes. */
  function ReadOne(r: Record, rings: Rings): seq<Msg> {
    if ReadRecord(r, rings).Some? then [ReadRecord(r, rings).value] else []
  }

  lemma ReadableOfFirst(rs: seq<Record>, rings: Rings)
    requires rs != []
    ensures Readable(rs, rings) == ReadOne(rs[0], rings) + Readable(rs[1..], rings)
  {
  }

  lemma Regroup(x: seq<Msg>, y: seq<Msg>, z: seq<Msg>)
    ensures x + y + z == x + (y + z)
  {
  }

  lemma {:induction false} ReadableOfAppend(a: seq<Record>, b: seq<Record>, rings: Rings)
    ensures Readable(a + b, rings) == Readable(a, rings) + Readable(b, rings)
  {
    if a == [] {
      assert a + b == b;
    } else {
      assert (a + b)[0] == a[0] && (a + b)[1..] == a[1..] + b;
      ReadableOfAppend(a[1..], b, rings);
      ReadableOfFirst(a, rings);
      ReadableOfFirst(a + b, rings);
      Regroup(ReadOne(a[0], rings), Readable(a[1..], rings), Readable(b, rings));
    }
  }
}
