/**
 * Whole runs of the host, for all its agents at once: whatever calls come for whichever agents, each
 * agent goes through a run of custody steps, so its ledger balances.
 */
module HostRuns {
  import opened Common
  import opened Messages
  import opened InboundDedup
  import opened QueueRetained
  import opened Custody
  import opened CustodyLaws
  import opened Hosting

  /** A call for one agent; drains and expiry sweeps reach every agent. */
  datatype Call = Call(agentId: string, op: Op)

  ghost function EnvOf(host: AgentHost): Env
    reads host
  {
    Env(host.filaRetida.digest, host.rings)
  }

  /** What one call did to the agent `a`: at most one custody step. */
  twostate predicate Felt(host: AgentHost, a: string, felt: seq<Op>)
    reads host, host.inboundBuffer, host.filaRetida
  {
    && |felt| <= 1
    && host.View(a) == (if felt == [] then old(host.View(a)) else Step(old(host.View(a)), felt[0], EnvOf(host)).box)
  }

  /* ---------- the runner's own moves, which the host only watches ---------- */

  method TurnStarts(host: AgentHost, b: string)
    requires host.Valid()
    modifies host`entries
    ensures host.Valid() && host.Others(b)
    ensures host.View(b) == StartTurn(old(host.View(b))).box
  {
    if b in host.entries && host.entries[b].runner.Some? {
      var e := host.entries[b];
      var r := e.runner.value;
      if r.queue != [] && r.inFlight.None? {
        host.entries := host.entries[b := e.(runner := Some(r.(queue := r.queue[1..], inFlight := Some(r.queue[0]))))];
      }
    }
  }

  method TurnFinishes(host: AgentHost, b: string)
    requires host.Valid()
    modifies host`entries
    ensures host.Valid() && host.Others(b)
    ensures host.View(b) == FinishTurn(old(host.View(b))).box
  {
    if b in host.entries && host.entries[b].runner.Some? && host.entries[b].runner.value.inFlight.Some? {
      var e := host.entries[b];
      host.entries := host.entries[b := e.(runner := Some(e.runner.value.(inFlight := None)))];
    }
  }

  method RunnerChangesItsMind(host: AgentHost, b: string, accepts: nat -> bool, blocked: nat -> bool, tells: nat -> nat)
    requires host.Valid()
    modifies host`entries
    ensures host.Valid() && host.Others(b)
    ensures host.View(b) == ChangeRunner(old(host.View(b)), accepts, blocked, tells).box
  {
    if b in host.entries && host.entries[b].runner.Some? {
      var e := host.entries[b];
      host.entries := host.entries[b :=
        e.(runner := Some(e.runner.value.(accepts := accepts, blocked := blocked, tells := tells)))];
    }
  }

  method RunnerHandsBack(host: AgentHost, b: string, source: Source, now: int)
    requires host.Valid()
    modifies host`entries, host.filaRetida
    ensures host.Valid() && host.OthersAtMostExpired(b, now)
    ensures host.View(b) == RetainQueue(old(host.View(b)), source, now, host.filaRetida.digest).box
  {
    if b in host.entries && host.entries[b].runner.Some? {
      host.RetainFromRunner(b, source, now);
    }
  }

  method BufferAges(host: AgentHost, b: string, now: int)
    requires host.Valid()
    modifies host.inboundBuffer
    ensures host.Valid() && host.Others(b)
    ensures host.View(b) == ExpireBuffer(old(host.View(b)), now).box
  {
    host.inboundBuffer.Gc(b, now);
  }

  method RetainedAge(host: AgentHost, now: int)
    requires host.Valid()
    modifies host.filaRetida
    ensures host.Valid()
    ensures forall a :: host.View(a) == ExpireRetained(old(host.View(a)), now).box
  {
    host.filaRetida.Expirar(now);
  }

  /* ---------- one call ---------- */

  predicate Local(op: Op) {
    || op.DoQueueDeliver? || op.DoPause? || op.DoResume? || op.DoReconnect? || op.DoRemove? || op.DoForget?
    || op.DoFlush? || op.DoSpawnDone? || op.DoQueueChanged?
    || op.RunnerStarts? || op.RunnerFinishes? || op.RunnerExits? || op.RunnerChanges? || op.BufferExpires?
  }

  predicate MayExpire(op: Op) {
    op.DoSend? || op.DoStop? || op.DoSpawn? || op.RunnerRetains?
  }

  predicate TouchesSpool(op: Op) {
    op.DoFlush? || op.DoSpawnDone? || op.DoQueueChanged? || op.DoQueueDeliver?
  }

  /** The calls that touch the spool: its file goes with it, when it can be written. */
  method PerformSpool(host: AgentHost, b: string, op: Op, writeOk: bool)
    requires host.Valid() && TouchesSpool(op)
    modifies host`entries, host`spooled, host`drainHeld, host`pauseHeld, host`spoolPath, host`inboundAgentIds,
             host.inboundBuffer, host.disk`spool
    ensures host.Valid() && host.Others(b)
    ensures host.View(b) == Step(old(host.View(b)), op, EnvOf(host)).box
    ensures old(host.InSync()) && writeOk ==> host.InSync()
  {
    if op.DoFlush? {
      host.FlushInboundBuffer(b, op.now, writeOk);
    } else if op.DoSpawnDone? {
      host.SpawnDone(b, op.now, writeOk);
    } else if op.DoQueueChanged? {
      host.OnRunnerQueueChanged(b, op.now, writeOk);
    } else {
      var _ := host.DeliverQueued(b, op.m, op.now, writeOk);
    }
  }

  /** The moves of the runner and of the buffer's clock. */
  method PerformMove(host: AgentHost, b: string, op: Op)
    requires host.Valid() && (op.RunnerStarts? || op.RunnerFinishes? || op.RunnerExits? || op.RunnerChanges? ||
             op.BufferExpires?)
    modifies host`entries, host.inboundBuffer
    ensures host.Valid() && host.Others(b)
    ensures host.View(b) == Step(old(host.View(b)), op, EnvOf(host)).box
  {
    if op.RunnerChanges? {
      RunnerChangesItsMind(host, b, op.accepts, op.blocked, op.tells);
    } else if op.BufferExpires? {
      BufferAges(host, b, op.now);
    } else {
      PerformTurn(host, b, op);
    }
  }

  method PerformTurn(host: AgentHost, b: string, op: Op)
    requires host.Valid() && (op.RunnerStarts? || op.RunnerFinishes? || op.RunnerExits?)
    modifies host`entries
    ensures host.Valid() && host.Others(b)
    ensures host.View(b) == Step(old(host.View(b)), op, EnvOf(host)).box
  {
    if op.RunnerStarts? {
      TurnStarts(host, b);
    } else if op.RunnerFinishes? {
      TurnFinishes(host, b);
    } else {
      host.OnExit(b);
    }
  }

  /** The calls that concern one agent alone. */
  method PerformLocal(host: AgentHost, b: string, op: Op, writeOk: bool)
    requires host.Valid() && Local(op)
    modifies host`entries, host`spooled, host`drainHeld, host`pauseHeld, host`pausados, host`spoolPath,
             host`inboundAgentIds,
             host.inboundBuffer, host.filaRetida, host.disk`spool
    ensures host.Valid() && host.Others(b)
    ensures host.View(b) == Step(old(host.View(b)), op, EnvOf(host)).box
    ensures old(host.InSync()) && writeOk ==> host.InSync()
  {
    if TouchesSpool(op) {
      PerformSpool(host, b, op, writeOk);
    } else if op.RunnerStarts? || op.RunnerFinishes? || op.RunnerExits? || op.RunnerChanges? || op.BufferExpires? {
      PerformMove(host, b, op);
    } else {
      PerformQueue(host, b, op);
    }
  }

  /** The calls that move one agent's queues. */
  method PerformQueue(host: AgentHost, b: string, op: Op)
    requires host.Valid() && (op.DoPause? || op.DoResume? || op.DoReconnect? || op.DoRemove? || op.DoForget?)
    modifies host`entries, host`drainHeld, host`pauseHeld, host`pausados, host.inboundBuffer, host.filaRetida
    ensures host.Valid() && host.Others(b)
    ensures host.View(b) == Step(old(host.View(b)), op, EnvOf(host)).box
  {
    if op.DoPause? {
      host.Pause(b, op.now);
    } else if op.DoResume? {
      var _ := host.Resume(b);
    } else if op.DoReconnect? {
      host.Reconnect(b, op.paused, op.now);
    } else if op.DoRemove? {
      var _ := host.RemoverDaFilaViva(b, op.id);
    } else {
      var _ := host.QueueForget(b);
    }
  }

  /** The calls that may sweep the retained queues of everybody. */
  method PerformExpiring(host: AgentHost, b: string, op: Op)
    requires host.Valid() && MayExpire(op)
    modifies host`entries, host`pauseHeld, host`drainHeld, host`pausados, host`inboundAgentIds, host.inboundBuffer,
             host.filaRetida
    ensures host.Valid() && host.OthersAtMostExpired(b, op.now)
    ensures host.View(b) == Step(old(host.View(b)), op, EnvOf(host)).box
  {
    if op.DoSend? {
      host.SendMessage(b, op.m, op.now);
    } else if op.DoStop? {
      host.Stop(b, op.now);
    } else if op.DoSpawn? {
      host.Spawn(b, op.paused, op.runner, op.project, op.now);
    } else {
      RunnerHandsBack(host, b, op.source, op.now);
    }
  }

  /** The calls that reach every agent. */
  method PerformGlobal(host: AgentHost, op: Op)
    requires host.Valid() && !Local(op) && !MayExpire(op)
    modifies host`entries, host`drainHeld, host`draining, host.filaRetida
    ensures host.Valid()
    ensures forall a :: host.View(a) == Step(old(host.View(a)), op, EnvOf(host)).box
  {
    if op.DoStartDrain? {
      host.StartDrain(op.now);
    } else if op.DoHoldInFlight? {
      host.HoldInFlightForShutdown(op.now);
    } else {
      RetainedAge(host, op.now);
    }
  }

  /** What agent `a` feels of a call that concerns one agent. */
  method FeelLocal(host: AgentHost, b: string, op: Op, writeOk: bool, ghost a: string) returns (ghost felt: seq<Op>)
    requires host.Valid() && Local(op)
    modifies host`entries, host`spooled, host`drainHeld, host`pauseHeld, host`pausados, host`spoolPath,
             host`inboundAgentIds,
             host.inboundBuffer, host.filaRetida, host.disk`spool
    ensures host.Valid() && Felt(host, a, felt) && felt == if a == b then [op] else []
    ensures old(host.InSync()) && writeOk ==> host.InSync()
  {
    PerformLocal(host, b, op, writeOk);
    felt := if a == b then [op] else [];
  }

  /** What it feels of one that may sweep the retained queues. */
  method FeelExpiring(host: AgentHost, b: string, op: Op, ghost a: string) returns (ghost felt: seq<Op>)
    requires host.Valid() && MayExpire(op)
    modifies host`entries, host`pauseHeld, host`drainHeld, host`pausados, host`inboundAgentIds, host.inboundBuffer,
             host.filaRetida
    ensures host.Valid() && Felt(host, a, felt)
    ensures if a == b then felt == [op] else felt == [] || felt == [RetainedExpires(op.now)]
  {
    PerformExpiring(host, b, op);
    if a == b {
      felt := [op];
    } else {
      felt := FeltSweep(old(host.View(a)), host.View(a), op.now, EnvOf(host));
    }
  }

  lemma FeltSweep(b: Box, c: Box, now: int, env: Env) returns (felt: seq<Op>)
    requires c == b || c == b.(retained := Vivos(b.retained, now))
    ensures felt == [] || felt == [RetainedExpires(now)]
    ensures c == if felt == [] then b else Step(b, felt[0], env).box
  {
    felt := if c == b then [] else [RetainedExpires(now)];
  }

  /** One call, and what agent `a` feels of it. */
  method Perform(host: AgentHost, call: Call, writeOk: bool, ghost a: string) returns (ghost felt: seq<Op>)
    requires host.Valid()
    modifies host, host.inboundBuffer, host.filaRetida, host.disk`spool
    ensures host.Valid() && EnvOf(host) == old(EnvOf(host))
    ensures Felt(host, a, felt) && FeltOf(call, a, felt)
    ensures old(host.InSync()) && writeOk ==> host.InSync()
  {
    if Local(call.op) {
      felt := FeelLocal(host, call.agentId, call.op, writeOk, a);
    } else if MayExpire(call.op) {
      felt := FeelExpiring(host, call.agentId, call.op, a);
    } else {
      PerformGlobal(host, call.op);
      felt := [call.op];
    }
  }

  /* ---------- whole runs ---------- */

  /**
   * The steps agent `a` may feel of one call: its own calls and those for everybody as they are, else at most
   * a sweep.
   */
  ghost predicate FeltOf(call: Call, a: string, felt: seq<Op>) {
    if call.agentId == a || Global(call.op) then felt == [call.op]
    else if MayExpire(call.op) then felt == [] || felt == [RetainedExpires(call.op.now)]
    else felt == []
  }

  predicate Global(op: Op) {
    !Local(op) && !MayExpire(op)
  }

  /** `felts[i]` is what agent `a` feels of call `i`. */
  ghost predicate FeltRun(calls: seq<Call>, a: string, felts: seq<seq<Op>>) {
    |felts| == |calls| && forall i :: 0 <= i < |calls| ==> FeltOf(calls[i], a, felts[i])
  }

  function Flat(felts: seq<seq<Op>>): seq<Op> {
    if felts == [] then [] else Flat(felts[..|felts| - 1]) + felts[|felts| - 1]
  }

  lemma FlatAppend(felts: seq<seq<Op>>, felt: seq<Op>)
    ensures Flat(felts + [felt]) == Flat(felts) + felt
  {
    assert (felts + [felt])[..|felts|] == felts;
  }

  /** If all calls are for agent `a`, its run is exactly these calls, in order. */
  lemma {:induction false} OwnCallsAreTheRun(calls: seq<Call>, a: string, felts: seq<seq<Op>>)
    requires FeltRun(calls, a, felts) && forall i :: 0 <= i < |calls| ==> calls[i].agentId == a
    ensures Flat(felts) == seq(|calls|, i requires 0 <= i < |calls| => calls[i].op)
  {
    if calls != [] {
      var n := |calls| - 1;
      OwnCallsAreTheRun(calls[..n], a, felts[..n]);
      assert FeltOf(calls[n], a, felts[n]);
    }
  }

  lemma RunOpsAppend(b: Box, ops: seq<Op>, felt: seq<Op>, env: Env)
    requires |felt| <= 1
    ensures RunOps(b, ops + felt, env).box == if felt == [] then RunOps(b, ops, env).box
            else Step(RunOps(b, ops, env).box, felt[0], env).box
  {
    if felt == [] {
      assert ops + felt == ops;
    } else {
      assert (ops + felt)[..|ops|] == ops;
    }
  }

  lemma FeltRunAppend(calls: seq<Call>, i: nat, a: string, felts: seq<seq<Op>>, felt: seq<Op>)
    requires i < |calls| && FeltRun(calls[..i], a, felts) && FeltOf(calls[i], a, felt)
    ensures FeltRun(calls[..i + 1], a, felts + [felt])
  {
  }

  /** Agent `a` has come from `b` to where it is by what it felt of the first `i` calls. */
  ghost predicate CameBy(host: AgentHost, calls: seq<Call>, i: nat, a: string, b: Box, felts: seq<seq<Op>>)
    requires i <= |calls|
    reads host, host.inboundBuffer, host.filaRetida
  {
    FeltRun(calls[..i], a, felts) && host.View(a) == RunOps(b, Flat(felts), EnvOf(host)).box
  }

  /** One more call. */
  method PerformNext(host: AgentHost, calls: seq<Call>, i: nat, writeOk: bool, ghost a: string, ghost b: Box,
                     ghost felts: seq<seq<Op>>)
    returns (ghost more: seq<seq<Op>>)
    requires host.Valid() && i < |calls| && CameBy(host, calls, i, a, b, felts)
    modifies host, host.inboundBuffer, host.filaRetida, host.disk`spool
    ensures host.Valid() && EnvOf(host) == old(EnvOf(host))
    ensures CameBy(host, calls, i + 1, a, b, more)
    ensures old(host.InSync()) && writeOk ==> host.InSync()
  {
    ghost var felt;
    felt := Perform(host, calls[i], writeOk, a);
    RunOpsAppend(b, Flat(felts), felt, EnvOf(host));
    FlatAppend(felts, felt);
    FeltRunAppend(calls, i, a, felts, felt);
    more := felts + [felt];
  }

  ghost predicate AllWritten(writeOk: seq<bool>) {
    forall i :: 0 <= i < |writeOk| ==> writeOk[i]
  }

  /**
   * Any sequence of calls to the host is, for each agent, the run of custody steps it feels of them. If every
   * write of the spool file works, the file shows at the end, as at the start, what still waits.
   */
  method RunHost(host: AgentHost, calls: seq<Call>, writeOk: seq<bool>, ghost a: string)
    returns (ghost felts: seq<seq<Op>>)
    requires host.Valid() && |writeOk| == |calls|
    modifies host, host.inboundBuffer, host.filaRetida, host.disk`spool
    ensures host.Valid() && EnvOf(host) == old(EnvOf(host))
    ensures FeltRun(calls, a, felts)
    ensures host.View(a) == RunOps(old(host.View(a)), Flat(felts), old(EnvOf(host))).box
    ensures old(host.InSync()) && AllWritten(writeOk) ==> host.InSync()
  {
    ghost var b := host.View(a);
    felts := [];
    for i := 0 to |calls|
      invariant host.Valid() && EnvOf(host) == old(EnvOf(host))
      invariant CameBy(host, calls, i, a, b, felts)
      invariant old(host.InSync()) && AllWritten(writeOk) ==> host.InSync()
    {
      felts := PerformNext(host, calls, i, writeOk[i], a, b, felts);
    }
    assert calls[..|calls|] == calls;
  }

  /** Hence the ledger of custody balances on the host itself, for every agent, every message and these very calls. */
  method RunHostBalanced(host: AgentHost, calls: seq<Call>, writeOk: seq<bool>, ghost a: string, ghost m: Msg)
    returns (ghost felts: seq<seq<Op>>)
    requires host.Valid() && |writeOk| == |calls| && WellKept(host.View(a))
    modifies host, host.inboundBuffer, host.filaRetida, host.disk`spool
    ensures host.Valid() && WellKept(host.View(a))
    ensures FeltRun(calls, a, felts)
    ensures var o := RunOps(old(host.View(a)), Flat(felts), old(EnvOf(host)));
            host.View(a) == o.box && Held(old(host.View(a)), m) + Count(o.entered, m) == Held(host.View(a), m) +
              CountGone(o.gone, m)
  {
    felts := RunHost(host, calls, writeOk, a);
    EveryRunBalances(old(host.View(a)), Flat(felts), old(EnvOf(host)), m);
  }
}
