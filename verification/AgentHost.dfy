/**
 * The host of the agents (src/agent-host.ts), with its maps and sets updated in place. What it holds
 * for one agent is that agent's Box; every method does to it exactly what the custody step says, and
 * leaves the other agents alone.
 */
module Hosting {
  import opened Common
  import opened Messages
  import opened InboundDedup
  import opened QueueRetained
  import opened Custody
  import opened CustodyLaws
  import opened Reexec
  import CustodyControl

  datatype Entry = Entry(projectId: Option<string>, runner: Option<Runner>, parado: bool)

  /** What outlives a process: the spool file and the file of seen ids. */
  class Disk {
    var spool: Option<seq<Filed>>
    var seen: Option<SeenFile>

    constructor ()
      ensures spool == None && seen == None
    {
      spool, seen := None, None;
    }
  }

  /** What became of a write of the spool: an exception, or the ids that were not written. */
  datatype SpoolWrite = Threw | Done(written: bool, lostDeliveryIds: seq<string>)

  /** A batch from the server: the box after it, and the positions of the accepted items. */
  function QueueDeliverAll(b: Box, msgs: seq<Msg>, rings: Rings, now: int): (Box, seq<nat>) {
    if msgs == [] then (b, [])
    else
      var n := |msgs| - 1;
      var (c, aceitos) := QueueDeliverAll(b, msgs[..n], rings, now);
      var (o, ok) := Custody.QueueDeliver(c, msgs[n], rings, now);
      (o.box, if ok then aceitos + [n] else aceitos)
  }

  lemma PushBufferOneMore(b: Box, pending: seq<Item>, i: nat, rings: Rings, now: int)
    requires i < |pending| && b.runner.Some?
    ensures var c := PushBuffer(b, Loads(pending[..i]), rings, now).box;
            c.runner.Some? &&
            PushBuffer(b, Loads(pending[..i + 1]), rings, now).box == PushBuffered(c, pending[i].msg, rings, now).box
    ensures PushBuffer(b, Loads(pending[..i + 1]), rings, now).box.runner.Some?
  {
    var msgs := Loads(pending[..i + 1]);
    assert msgs[..|msgs| - 1] == Loads(pending[..i]) && msgs[|msgs| - 1] == pending[i].msg;
    PushBufferSteady(b, Loads(pending[..i]), rings, now);
    PushBufferedSteady(PushBuffer(b, Loads(pending[..i]), rings, now).box, pending[i].msg, rings, now);
  }

  lemma DrainFlagIsSet(b: Box, now: int)
    ensures Custody.StartDrain(b.(draining := true), now).box == Custody.StartDrain(b, now).box
    ensures b.runner.None? ==> Custody.StartDrain(b, now).box == b.(draining := true)
  {
  }

  /** Without ids there are no duplicates. */
  lemma {:induction false} NamelessAreAllHeld(held: seq<Item>, items: seq<Item>)
    requires forall i :: 0 <= i < |items| ==> !HasId(items[i].msg.id)
    ensures HoldAllForDrain(held, items) == held + items
  {
    if items == [] {
      assert held + items == held;
    } else {
      NamelessAreAllHeld(held, items[..|items| - 1]);
      assert items == items[..|items| - 1] + [items[|items| - 1]];
    }
  }

  lemma LostOneMore(lost: seq<Item>, item: Item, ids: seq<string>)
    requires forall id :: id in ids <==> id != "" && CarriesId(lost, Some(id))
    ensures var ids' := if HasId(item.msg.id) then ids + [item.msg.id.value] else ids;
            forall id :: id in ids' <==> id != "" && CarriesId(lost + [item], Some(id))
  {
    forall id ensures CarriesId(lost + [item], Some(id)) <==> CarriesId(lost, Some(id)) || item.msg.id == Some(id) {
      CarriesOfAppend(lost, [item], Some(id));
      CarriesOfOne(item, Some(id));
    }
  }

  function FileOf(spool: Option<seq<Filed>>): seq<Filed> {
    if spool.Some? then spool.value else []
  }

  function Get<V>(m: map<string, seq<V>>, a: string): seq<V> {
    if a in m then m[a] else []
  }

  class AgentHost {
    var entries: map<string, Entry>
    const inboundBuffer: AgentInboundBuffer
    var inboundAgentIds: set<string>
    var draining: bool
    var drainHeld: map<string, seq<Item>>
    var spooled: map<string, seq<Record>>
    var pausados: set<string>
    var pauseHeld: map<string, seq<Item>>
    const filaRetida: FilaRetida
    var rings: Rings
    const disk: Disk
    var spoolPath: bool

    ghost predicate Valid()
      reads this, inboundBuffer, filaRetida
    {
      && filaRetida.Valid()
      && inboundBuffer.maxPerAgent == BUFFER_MAX && inboundBuffer.ttlMs == INBOUND_TTL_MS
      && (forall a :: a in spooled ==> spooled[a] != [])
      && (forall a {:trigger inboundBuffer.Of(a)} :: inboundBuffer.Of(a) != [] ==> a in inboundAgentIds)
    }

    constructor (digest: Digest, rings: Rings, disk: Disk)
      ensures Valid() && fresh(inboundBuffer) && fresh(filaRetida) && this.disk == disk
      ensures this.rings == rings && filaRetida.digest == digest && NothingSpooled()
      ensures forall a :: View(a) == Box(false, false, false, false, None, None, false, [], [], [], [], [])
    {
      entries, inboundAgentIds, draining, drainHeld := map[], {}, false, map[];
      spooled, pausados, pauseHeld, spoolPath := map[], {}, map[], false;
      this.rings, this.disk := rings, disk;
      inboundBuffer := new AgentInboundBuffer(BUFFER_MAX, INBOUND_TTL_MS);
      filaRetida := new FilaRetida(digest);
    }

    /** All that the host holds for one agent. */
    function View(a: string): Box
      reads this, inboundBuffer, filaRetida
    {
      Box(draining, a in pausados, a in entries, a in entries && entries[a].parado,
          if a in entries then entries[a].projectId else None,
          if a in entries then entries[a].runner else None,
          a in inboundAgentIds, inboundBuffer.Of(a), Get(drainHeld, a), Get(pauseHeld, a), Get(spooled, a),
            filaRetida.Listar(a))
    }

    twostate predicate Others(a: string)
      reads this, inboundBuffer, filaRetida
    {
      forall b :: b != a ==> View(b) == old(View(b))
    }

    /** The same, but for a sweep of the retained queues. */
    twostate predicate OthersAtMostExpired(a: string, now: int)
      reads this, inboundBuffer, filaRetida
    {
      forall b :: b != a ==>
        View(b) == old(View(b)) || View(b) == old(View(b)).(retained := Vivos(old(View(b)).retained, now))
    }

    /* ---------- the runner ---------- */

    method PushUserMessage(a: string, m: Msg) returns (ok: bool)
      requires Valid() && View(a).runner.Some?
      modifies this`entries
      ensures Valid() && Others(a)
      ensures View(a) == old(View(a)).(runner := Some(PushTo(old(View(a)).runner.value, m).0))
      ensures ok == PushTo(old(View(a)).runner.value, m).1
    {
      var e := entries[a];
      var (r, answer) := PushTo(e.runner.value, m);
      entries := entries[a := e.(runner := Some(r))];
      ok := answer;
    }

    /** What the runner has not started. */
    method TakeQueued(a: string) returns (msgs: seq<Msg>)
      requires Valid() && View(a).runner.Some?
      modifies this`entries
      ensures Valid() && Others(a) && entries.Keys == old(entries.Keys)
      ensures msgs == QueueOf(old(View(a)))
      ensures View(a) == old(View(a)).(runner := Some(old(View(a)).runner.value.(queue := [])))
    {
      var e := entries[a];
      msgs := e.runner.value.queue;
      entries := entries[a := e.(runner := Some(e.runner.value.(queue := [])))];
    }

    /* ---------- the pause ---------- */

    method SegurarNaPausa(a: string, itens: seq<Item>, naFrente: bool)
      requires Valid()
      modifies this`pauseHeld
      ensures Valid() && Others(a)
      ensures View(a) == old(View(a)).(pauseHeld := HoldAtPause(old(View(a)).pauseHeld, itens, naFrente))
    {
      if |itens| == 0 {
        return;
      }
      var atual := Get(pauseHeld, a);
      var lista := if naFrente then itens + atual else atual + itens;
      var excesso := |lista| - CAP_POR_AGENTE;
      if excesso > 0 {
        lista := lista[excesso..];
      }
      pauseHeld := pauseHeld[a := lista];
    }

    method TirarDoRunnerParaPausa(a: string, now: int)
      requires Valid() && View(a).runner.Some?
      modifies this`entries, this`pauseHeld
      ensures Valid() && Others(a)
      ensures View(a) == TakeToPause(old(View(a)), now).box
    {
      var msgs := TakeQueued(a);
      SegurarNaPausa(a, Stamp(msgs, now), true);
    }

    method Pause(a: string, now: int)
      requires Valid()
      modifies this`entries, this`pauseHeld, this`pausados
      ensures Valid() && Others(a)
      ensures View(a) == Custody.Pause(old(View(a)), now).box
    {
      if a in pausados {
        return;
      }
      pausados := pausados + {a};
      if a in entries && entries[a].runner.Some? {
        TirarDoRunnerParaPausa(a, now);
      }
    }

    /** The delivery loop of `liberarPausa`: a member's turn passes the gate or is dropped. */
    method EntregarDaPausa(a: string, lista: seq<Item>) returns (entregues: nat)
      requires Valid() && View(a).runner.Some?
      modifies this`entries
      ensures Valid() && Others(a)
      ensures var d := PushAll(old(View(a)).runner.value, Loads(lista));
              View(a) == old(View(a)).(runner := Some(d.runner)) && entregues == |d.pushed|
    {
      ghost var r := View(a).runner.value;
      entregues := 0;
      for i := 0 to |lista|
        invariant Valid() && Others(a)
        invariant View(a) == old(View(a)).(runner := Some(PushAll(r, Loads(lista[..i])).runner))
        invariant entregues == |PushAll(r, Loads(lista[..i])).pushed|
      {
        assert Loads(lista[..i + 1])[..i] == Loads(lista[..i]);
        var m := lista[i].msg;
        if Gated(entries[a].runner.value, m) {
          continue;
        }
        var _ := PushUserMessage(a, m);
        entregues := entregues + 1;
      }
      assert lista[..|lista|] == lista;
    }

    method LiberarPausa(a: string) returns (entregues: nat)
      requires Valid()
      modifies this`entries, this`pauseHeld, this`drainHeld
      ensures Valid() && Others(a)
      ensures View(a) == Liberar(old(View(a))).box
      ensures entregues == |Liberar(old(View(a))).pushed|
    {
      var lista := Get(pauseHeld, a);
      if a in pausados || |lista| == 0 || a !in entries || entries[a].runner.None? || entries[a].parado ||
          a in spooled {
        return 0;
      }
      pauseHeld := pauseHeld - {a};
      if draining {
        HoldListForDrain(a, lista);
        return 0;
      }
      entregues := EntregarDaPausa(a, lista);
    }

    method Resume(a: string) returns (entregues: nat)
      requires Valid()
      modifies this`entries, this`pauseHeld, this`drainHeld, this`pausados
      ensures Valid() && Others(a)
      ensures View(a) == Custody.Resume(old(View(a))).box
      ensures entregues == |Custody.Resume(old(View(a))).pushed|
    {
      if a !in pausados {
        return 0;
      }
      pausados := pausados - {a};
      entregues := LiberarPausa(a);
    }

    /* ---------- the drain ---------- */

    method HoldItemForDrain(a: string, item: Item, primeiro: bool)
      requires Valid()
      modifies this`drainHeld
      ensures Valid() && Others(a)
      ensures View(a) == old(View(a)).(drainHeld := HoldForDrain(old(View(a)).drainHeld, item, primeiro))
    {
      var list := Get(drainHeld, a);
      if HasId(item.msg.id) && CarriesId(list, item.msg.id) {
        return;
      }
      list := if primeiro then [item] + list else list + [item];
      drainHeld := drainHeld[a := list];
    }

    method HoldListForDrain(a: string, itens: seq<Item>)
      requires Valid()
      modifies this`drainHeld
      ensures Valid() && Others(a)
      ensures View(a) == old(View(a)).(drainHeld := HoldAllForDrain(old(View(a)).drainHeld, itens))
    {
      for i := 0 to |itens|
        invariant Valid() && Others(a)
        invariant View(a) == old(View(a)).(drainHeld := HoldAllForDrain(old(View(a)).drainHeld, itens[..i]))
      {
        assert itens[..i + 1][..i] == itens[..i];
        HoldItemForDrain(a, itens[i], false);
      }
      assert itens[..|itens|] == itens;
    }

    /** `startDrain`, for one agent of the entries. */
    method DrainAgent(a: string, now: int)
      requires Valid() && a in entries && draining
      modifies this`entries, this`drainHeld
      ensures Valid() && Others(a) && entries.Keys == old(entries.Keys)
      ensures View(a) == Custody.StartDrain(old(View(a)), now).box
    {
      if entries[a].runner.None? {
        return;
      }
      var msgs := TakeQueued(a);
      HoldListForDrain(a, Stamp(msgs, now));
    }

    /** The loop of `startDrain`. */
    method DrainEntries(now: int)
      requires Valid() && draining
      modifies this`entries, this`drainHeld
      ensures Valid()
      ensures forall a :: View(a) == if a in old(entries.Keys) then Custody.StartDrain(old(View(a)), now).box
              else old(View(a))
    {
      var restantes := entries.Keys;
      while restantes != {}
        invariant Valid() && restantes <= entries.Keys && entries.Keys == old(entries.Keys)
        invariant forall a :: View(a) == if a in old(entries.Keys) - restantes
                  then Custody.StartDrain(old(View(a)), now).box
                                         else old(View(a))
        decreases |restantes|
      {
        var a :| a in restantes;
        label Antes:
        DrainAgent(a, now);
        restantes := restantes - {a};
        assert View(a) == Custody.StartDrain(old(View(a)), now).box;
        forall b | b != a ensures View(b) == if b in old(entries.Keys) - restantes
            then Custody.StartDrain(old(View(b)), now).box else old(View(b)) {
          assert View(b) == old@Antes(View(b));
        }
      }
    }

    method StartDrain(now: int)
      requires Valid()
      modifies this`entries, this`drainHeld, this`draining
      ensures Valid()
      ensures forall a :: View(a) == Custody.StartDrain(old(View(a)), now).box
    {
      draining := true;
      label Ligado:
      assert forall a :: View(a) == old(View(a)).(draining := true);
      DrainEntries(now);
      forall a ensures View(a) == Custody.StartDrain(old(View(a)), now).box {
        DrainFlagIsSet(old(View(a)), now);
        assert old@Ligado(View(a)) == old(View(a)).(draining := true);
      }
    }

    method HoldAgentInFlight(a: string, now: int)
      requires Valid() && a in entries
      modifies this`entries, this`drainHeld
      ensures Valid() && Others(a) && entries.Keys == old(entries.Keys)
      ensures View(a) == Custody.HoldInFlight(old(View(a)), now).box
    {
      var e := entries[a];
      if e.runner.None? || e.runner.value.inFlight.None? {
        return;
      }
      var m := e.runner.value.inFlight.value;
      entries := entries[a := e.(runner := Some(e.runner.value.(inFlight := None)))];
      HoldItemForDrain(a, Plain(m, now), true);
    }

    /** The loop of `holdInFlightForShutdown`. */
    method HoldEntriesInFlight(now: int)
      requires Valid()
      modifies this`entries, this`drainHeld
      ensures Valid()
      ensures forall a :: a in old(entries.Keys) ==> View(a) == Custody.HoldInFlight(old(View(a)), now).box
      ensures forall a :: a !in old(entries.Keys) ==> View(a) == old(View(a))
    {
      var restantes := entries.Keys;
      while restantes != {}
        invariant Valid() && restantes <= entries.Keys && entries.Keys == old(entries.Keys)
        invariant forall a :: View(a) == if a in old(entries.Keys) - restantes
                  then Custody.HoldInFlight(old(View(a)), now).box
                                         else old(View(a))
        decreases |restantes|
      {
        var a :| a in restantes;
        label Antes:
        HoldAgentInFlight(a, now);
        restantes := restantes - {a};
        forall b ensures View(b) == if b in old(entries.Keys) - restantes
            then Custody.HoldInFlight(old(View(b)), now).box else old(View(b)) {
          if b != a {
            assert View(b) == old@Antes(View(b));
          }
        }
      }
    }

    method HoldInFlightForShutdown(now: int)
      requires Valid()
      modifies this`entries, this`drainHeld
      ensures Valid()
      ensures forall a :: View(a) == Custody.HoldInFlight(old(View(a)), now).box
    {
      HoldEntriesInFlight(now);
      forall a ensures View(a) == Custody.HoldInFlight(old(View(a)), now).box {
        if a !in old(entries.Keys) {
          assert InFlightOf(old(View(a))) == [];
        }
      }
    }

    /* ---------- sending ---------- */

    /** `reterFila` on behalf of an agent. */
    method ReterFila(a: string, novos: seq<Item>, now: int)
      requires Valid()
      modifies filaRetida
      ensures Valid() && OthersAtMostExpired(a, now)
      ensures View(a) == Retain(old(View(a)), novos, now, filaRetida.digest).box
    {
      var _ := filaRetida.Reter(a, novos, now);
    }

    /** The pre-spawn buffer takes the message. */
    method BufferInbound(a: string, ghost m: Msg, item: Item, now: int)
      requires Valid()
      modifies this`inboundAgentIds, inboundBuffer
      ensures Valid() && Others(a)
      ensures View(a) == BufferUp(old(View(a)), m, item, now).box
    {
      inboundAgentIds := inboundAgentIds + {a};
      var _ := inboundBuffer.Push(a, item, now);
    }

    method SendMessage(a: string, m: Msg, now: int)
      requires Valid()
      modifies this`entries, this`pauseHeld, this`drainHeld, this`inboundAgentIds, inboundBuffer, filaRetida
      ensures Valid()
      ensures View(a) == Send(old(View(a)), m, now, filaRetida.digest).box
      ensures OthersAtMostExpired(a, now)
    {
      if a in pausados {
        SegurarNaPausa(a, [Plain(m, now)], false);
        return;
      }
      if m.member && (draining || a !in entries || entries[a].runner.None? || a in spooled || entries[a].parado ||
          Gated(entries[a].runner.value, m)) {
        return;
      }
      if draining {
        HoldItemForDrain(a, Plain(m, now), false);
        return;
      }
      if a !in entries || entries[a].runner.None? || a in spooled {
        BufferInbound(a, m, Plain(m.(member := false), now), now);
        return;
      }
      if entries[a].parado {
        ReterFila(a, [Item(m.(member := false), now, Inbound, false, false)], now);
        return;
      }
      var _ := PushUserMessage(a, m);
    }

    method RemoveQueued(a: string, id: string) returns (ok: bool)
      requires Valid()
      modifies this`entries
      ensures Valid() && Others(a)
      ensures var q, i := QueueOf(old(View(a))), FirstWithId(QueueOf(old(View(a))), id);
              ok == (i < |q|) &&
              View(a) == if ok then old(View(a)).(runner := Some(old(View(a)).runner.value.(queue := Without(q, i))))
                else old(View(a))
    {
      if a !in entries || entries[a].runner.None? {
        return false;
      }
      var e := entries[a];
      var i := FirstWithId(e.runner.value.queue, id);
      ok := i < |e.runner.value.queue|;
      if ok {
        entries := entries[a := e.(runner := Some(e.runner.value.(queue := Without(e.runner.value.queue, i))))];
      }
    }

    method RemoveBuffered(a: string, id: string) returns (ok: bool)
      requires Valid()
      modifies inboundBuffer
      ensures Valid() && Others(a)
      ensures var buffer, i := old(View(a)).buffer, FirstWithId(Loads(old(View(a)).buffer), id);
              ok == (i < |buffer|) &&
              View(a) == if ok then old(View(a)).(buffer := Without(buffer, i)) else old(View(a))
    {
      ok := inboundBuffer.Remove(a, id);
    }

    /** The search of `removerDaFilaViva` in the drain queue and then in the pause queue. */
    method RemoveHeld(a: string, id: string) returns (ok: bool)
      requires Valid()
      modifies this`drainHeld, this`pauseHeld
      ensures Valid() && Others(a)
      ensures var b := old(View(a));
              var d, p := FirstWithId(Loads(b.drainHeld), id), FirstWithId(Loads(b.pauseHeld), id);
              ok == (d < |b.drainHeld| || p < |b.pauseHeld|) &&
              View(a) == if d < |b.drainHeld| then b.(drainHeld := Without(b.drainHeld, d))
                         else if p < |b.pauseHeld| then b.(pauseHeld := Without(b.pauseHeld, p))
                         else b
    {
      var held := Get(drainHeld, a);
      var i := FirstWithId(Loads(held), id);
      if i < |held| {
        drainHeld := drainHeld[a := Without(held, i)];
        return true;
      }
      held := Get(pauseHeld, a);
      i := FirstWithId(Loads(held), id);
      ok := i < |held|;
      if ok {
        pauseHeld := pauseHeld[a := Without(held, i)];
      }
    }

    /** `removerDaFilaViva`. */
    method RemoverDaFilaViva(a: string, id: string) returns (ok: bool)
      requires Valid()
      modifies this`entries, this`drainHeld, this`pauseHeld, inboundBuffer
      ensures Valid() && Others(a)
      ensures View(a) == Remove(old(View(a)), id).box
      ensures ok <==> Remove(old(View(a)), id).gone != []
    {
      ok := RemoveQueued(a, id);
      if ok {
        return;
      }
      ok := RemoveBuffered(a, id);
      if ok {
        return;
      }
      ok := RemoveHeld(a, id);
    }

    /* ---------- stopping and spawning ---------- */

    /** `retainFromRunner`. */
    method RetainFromRunner(a: string, source: Source, now: int)
      requires Valid() && View(a).runner.Some?
      modifies this`entries, filaRetida
      ensures Valid() && OthersAtMostExpired(a, now)
      ensures View(a) == RetainQueue(old(View(a)), source, now, filaRetida.digest).box
    {
      var msgs := TakeQueued(a);
      if |msgs| == 0 {
        assert old(View(a)).runner.value == old(View(a)).runner.value.(queue := []);
        return;
      }
      ReterFila(a, WithSource(msgs, now, source), now);
    }

    /** The turn in flight ends with its runner. */
    method StopRunner(a: string)
      requires Valid() && View(a).runner.Some?
      modifies this`entries
      ensures Valid() && Others(a)
      ensures View(a) == KillTurn(old(View(a))).box
    {
      var e := entries[a];
      entries := entries[a := e.(runner := Some(e.runner.value.(inFlight := None)))];
      assert old(View(a)).runner.value.inFlight.None? ==>
             old(View(a)).runner.value == old(View(a)).runner.value.(inFlight := None);
    }

    /** A runner that was there stays, stopped: what is sent no longer reaches it until a start. */
    method Stop(a: string, now: int)
      requires Valid()
      modifies this`entries, filaRetida
      ensures Valid() && OthersAtMostExpired(a, now)
      ensures View(a) == Custody.Stop(old(View(a)), now, filaRetida.digest).box
      ensures old(View(a)).runner.Some? ==>
                CustodyControl.ControlOf(View(a)) == CustodyControl.ControlOf(old(View(a))).(parado := true)
    {
      if a !in entries || entries[a].runner.None? {
        return;
      }
      CustodyControl.StopSteers(View(a), now, filaRetida.digest);
      entries := entries[a := entries[a].(parado := true)];
      StopRunner(a);
      RetainFromRunner(a, FromStop, now);
    }

    /** `queueForget`. */
    method QueueForget(a: string) returns (n: nat)
      requires Valid()
      modifies filaRetida
      ensures Valid() && Others(a)
      ensures View(a) == Forget(old(View(a))).box && View(a).retained == [] && n == |old(View(a)).retained|
    {
      n := filaRetida.Esquecer(a);
    }

    method OnExit(a: string)
      requires Valid()
      modifies this`entries
      ensures Valid() && Others(a)
      ensures View(a) == Exit(old(View(a))).box
    {
      if a in entries {
        entries := entries[a := entries[a].(runner := None)];
      }
    }

    /* ---------- the spool of the previous process ---------- */

    /** The whole spool as it would be written, agent by agent. */
    method FlattenSpool() returns (records: seq<Filed>)
      ensures forall a :: OfAgent(records, a) == Get(spooled, a)
    {
      records := [];
      var restantes := spooled.Keys;
      while restantes != {}
        invariant restantes <= spooled.Keys
        invariant forall a :: OfAgent(records, a) == if a in restantes then [] else Get(spooled, a)
        decreases |restantes|
      {
        var a :| a in restantes;
        ghost var antes := records;
        var parte := Tagged(a, spooled[a]);
        records := records + parte;
        restantes := restantes - {a};
        forall b ensures OfAgent(records, b) == if b in restantes then [] else Get(spooled, b) {
          OfAgentAppend(antes, parte, b);
          OfAgentTagged(a, spooled[a], b);
        }
      }
    }

    /** The file shows what memory holds. */
    ghost predicate SpoolFileCurrent()
      reads this`spooled, disk`spool
    {
      forall a :: OfAgent(FileOf(disk.spool), a) == Get(spooled, a)
    }

    ghost predicate NothingSpooled()
      reads this`spooled
    {
      forall a :: Get(spooled, a) == []
    }

    /** The file shows what memory holds, and will be rewritten as long as there is something to show. */
    ghost predicate InSync()
      reads this`spooled, this`spoolPath, disk`spool
    {
      SpoolFileCurrent() && (spoolPath || NothingSpooled())
    }

    /** `persistSpool`: rewrites or removes the file; a failure leaves it as it was. */
    method PersistSpool(writeOk: bool)
      requires Valid()
      modifies this`spoolPath, disk`spool
      ensures Valid()
      ensures old(spoolPath) && writeOk ==> SpoolFileCurrent()
      ensures !old(spoolPath) || !writeOk ==> disk.spool == old(disk.spool)
      ensures spoolPath ==> old(spoolPath)
      ensures old(spoolPath) ==> spoolPath || NothingSpooled()
      ensures forall a :: View(a) == old(View(a))
    {
      if !spoolPath {
        return;
      }
      var records := FlattenSpool();
      if !writeOk {
        return;
      }
      if |records| == 0 {
        disk.spool := None;
        spoolPath := false;
      } else {
        disk.spool := Some(records);
      }
    }

    /** The readable records of a list, as messages. */
    method ReadAll(list: seq<Record>) returns (msgs: seq<Msg>)
      ensures msgs == Readable(list, rings)
    {
      msgs := [];
      assert list[0..] == list;
      for i := 0 to |list|
        invariant msgs + Readable(list[i..], rings) == Readable(list, rings)
      {
        assert list[i..][1..] == list[i + 1..];
        var lido := ReadRecord(list[i], rings);
        if lido.Some? {
          msgs := msgs + [lido.value];
        }
      }
    }

    /** Pushes records until the runner refuses one; what stays starts with that one. */
    method PushRecords(a: string, list: seq<Record>) returns (recusados: seq<Record>)
      requires Valid() && View(a).runner.Some?
      modifies this`entries
      ensures Valid() && Others(a)
      ensures var s := PushSpool(old(View(a)).runner.value, list, rings);
              recusados == s.rest && View(a) == old(View(a)).(runner := Some(s.runner))
    {
      ghost var whole := PushSpool(View(a).runner.value, list, rings);
      assert list[0..] == list;
      for i := 0 to |list|
        invariant Valid() && Others(a) && View(a).runner.Some?
        invariant View(a) == old(View(a)).(runner := View(a).runner)
        invariant var s := PushSpool(View(a).runner.value, list[i..], rings);
                  s.rest == whole.rest && s.runner == whole.runner
      {
        assert list[i..][1..] == list[i + 1..];
        var lido := ReadRecord(list[i], rings);
        if lido.Some? {
          var ok := PushUserMessage(a, lido.value);
          if !ok {
            return list[i..];
          }
        }
      }
      return [];
    }

    /** The agent's records leave the map; a refusal puts its part back. */
    method TakeRecords(a: string) returns (list: seq<Record>)
      requires Valid() && a in spooled
      modifies this`spooled
      ensures Valid() && Others(a) && list == old(View(a)).spooled && View(a) == old(View(a)).(spooled := [])
    {
      list := spooled[a];
      spooled := spooled - {a};
    }

    method PutBack(a: string, recusados: seq<Record>)
      requires Valid() && View(a).spooled == []
      modifies this`spooled
      ensures Valid() && Others(a) && View(a) == old(View(a)).(spooled := recusados)
    {
      if |recusados| > 0 {
        spooled := spooled[a := recusados];
      }
    }

    method DeliverToRunner(a: string)
      requires Valid() && a in spooled && View(a).runner.Some?
      modifies this`entries, this`spooled
      ensures Valid() && Others(a)
      ensures var s := PushSpool(old(View(a)).runner.value, old(View(a)).spooled, rings);
              View(a) == old(View(a)).(runner := Some(s.runner), spooled := s.rest)
    {
      var list := TakeRecords(a);
      var recusados := PushRecords(a, list);
      PutBack(a, recusados);
    }

    method DeliverToDrain(a: string, now: int)
      requires Valid() && a in spooled
      modifies this`spooled, this`drainHeld
      ensures Valid() && Others(a)
      ensures var b := old(View(a));
              View(a) == b.(spooled := [], drainHeld := b.drainHeld +
                Stamp(WithoutIds(Readable(b.spooled, rings)), now))
    {
      var list := TakeRecords(a);
      var msgs := ReadAll(list);
      NamelessAreAllHeld(View(a).drainHeld, Stamp(WithoutIds(msgs), now));
      HoldListForDrain(a, Stamp(WithoutIds(msgs), now));
    }

    /** The delivery of `deliverSpoolFor`: to the caller, to the drain queue or to the runner. */
    method DeliverRecords(a: string, now: int) returns (retidos: seq<Item>)
      requires Valid() && a in spooled && View(a).runner.Some?
      modifies this`entries, this`spooled, this`drainHeld
      ensures Valid() && Others(a)
      ensures View(a) == DeliverSpool(old(View(a)), rings, now).0.box
      ensures retidos == DeliverSpool(old(View(a)), rings, now).1
    {
      retidos := [];
      if a in pausados {
        var list := TakeRecords(a);
        var msgs := ReadAll(list);
        retidos := Stamp(msgs, now);
      } else if draining {
        DeliverToDrain(a, now);
      } else {
        DeliverToRunner(a);
      }
    }

    /** `deliverSpoolFor`. */
    method DeliverSpoolFor(a: string, now: int, writeOk: bool) returns (retidos: seq<Item>)
      requires Valid()
      modifies this`entries, this`spooled, this`drainHeld, this`spoolPath, disk`spool
      ensures Valid() && Others(a)
      ensures View(a) == DeliverSpool(old(View(a)), rings, now).0.box
      ensures retidos == DeliverSpool(old(View(a)), rings, now).1
      ensures old(InSync()) && writeOk ==> InSync()
    {
      if a !in spooled || a !in entries || entries[a].runner.None? {
        return [];
      }
      retidos := DeliverRecords(a, now);
      PersistSpool(writeOk);
    }

    /** `onRunnerQueueChanged`. */
    method OnRunnerQueueChanged(a: string, now: int, writeOk: bool)
      requires Valid()
      modifies this`entries, this`spooled, this`drainHeld, this`spoolPath, disk`spool
      ensures Valid() && Others(a)
      ensures View(a) == QueueChanged(old(View(a)), rings, now).box
      ensures old(InSync()) && writeOk ==> InSync()
    {
      if a in spooled {
        var _ := DeliverSpoolFor(a, now, writeOk);
      }
    }

    /** The hook, called this often from inside a push. */
    method CallHook(a: string, times: nat, now: int, writeOk: bool)
      requires Valid()
      modifies this`entries, this`spooled, this`drainHeld, this`spoolPath, disk`spool
      ensures Valid() && Others(a)
      ensures View(a) == Told(old(View(a)), times, rings, now).box
      ensures old(InSync()) && writeOk ==> InSync()
      decreases times
    {
      if times > 0 {
        CallHook(a, times - 1, now, writeOk);
        OnRunnerQueueChanged(a, now, writeOk);
      }
    }

    /** `pushUserMessage` while something may wait in the spool: the runner calls the hook before it answers. */
    method OfferMessage(a: string, m: Msg, now: int, writeOk: bool) returns (ok: bool)
      requires Valid() && View(a).runner.Some?
      modifies this`entries, this`spooled, this`drainHeld, this`spoolPath, disk`spool
      ensures Valid() && Others(a)
      ensures ok == PushTo(old(View(a)).runner.value, m).1
      ensures var r := old(View(a)).runner.value;
              View(a) == Told(old(View(a)).(runner := Some(PushTo(r, m).0)), Calls(r, m), rings, now).box
      ensures old(InSync()) && writeOk ==> InSync()
    {
      var r := entries[a].runner.value;
      ok := PushUserMessage(a, m);
      CallHook(a, if ok then r.tells(r.pushes) else 0, now, writeOk);
    }

    /** One item of `queueDeliver`, with its answer to the server. */
    method DeliverQueued(a: string, m: Msg, now: int, writeOk: bool) returns (aceito: bool)
      requires Valid()
      modifies this`entries, this`pauseHeld, this`spooled, this`drainHeld, this`spoolPath, disk`spool
      ensures Valid() && Others(a)
      ensures View(a) == Custody.QueueDeliver(old(View(a)), m, rings, now).0.box
      ensures aceito == Custody.QueueDeliver(old(View(a)), m, rings, now).1
      ensures old(InSync()) && writeOk ==> InSync()
    {
      if a !in entries || entries[a].runner.None? {
        return false;
      }
      if a in pausados {
        if !CarriesId(Get(pauseHeld, a), m.id) {
          SegurarNaPausa(a, [Plain(m, now)], false);
        }
        return true;
      }
      if Gated(entries[a].runner.value, m) {
        return false;
      }
      aceito := OfferMessage(a, m, now, writeOk);
    }

    /** `queueDeliver`: in order, answering with the positions of the accepted items. */
    method QueueDeliver(a: string, msgs: seq<Msg>, now: int, writeOk: bool) returns (aceitos: seq<nat>)
      requires Valid()
      modifies this`entries, this`pauseHeld, this`spooled, this`drainHeld, this`spoolPath, disk`spool
      ensures Valid() && Others(a)
      ensures View(a) == QueueDeliverAll(old(View(a)), msgs, rings, now).0
      ensures aceitos == QueueDeliverAll(old(View(a)), msgs, rings, now).1
      ensures old(InSync()) && writeOk ==> InSync()
    {
      aceitos := [];
      for i := 0 to |msgs|
        invariant Valid() && Others(a)
        invariant View(a) == QueueDeliverAll(old(View(a)), msgs[..i], rings, now).0
        invariant aceitos == QueueDeliverAll(old(View(a)), msgs[..i], rings, now).1
        invariant old(InSync()) && writeOk ==> InSync()
      {
        assert msgs[..i + 1][..i] == msgs[..i];
        var aceito := DeliverQueued(a, msgs[i], now, writeOk);
        if aceito {
          aceitos := aceitos + [i];
        }
      }
      assert msgs[..|msgs|] == msgs;
    }

    /** `inboundBuffer.drain` together with the listing. */
    method DrainBuffer(a: string, now: int) returns (pending: seq<Item>)
      requires Valid()
      modifies this`inboundAgentIds, inboundBuffer
      ensures Valid() && Others(a)
      ensures pending == Fresh(old(View(a)).buffer, now - INBOUND_TTL_MS)
      ensures View(a) == old(View(a)).(buffer := [], listed := false)
      ensures inboundAgentIds == old(inboundAgentIds) - {a}
    {
      pending := inboundBuffer.Drain(a, now);
      inboundAgentIds := inboundAgentIds - {a};
    }

    /** Pushes what was buffered, without looking at the gate or at the answers. */
    method PushBuffered(a: string, pending: seq<Item>, now: int, writeOk: bool)
      requires Valid() && View(a).runner.Some?
      modifies this`entries, this`spooled, this`drainHeld, this`spoolPath, disk`spool
      ensures Valid() && Others(a)
      ensures View(a) == PushBuffer(old(View(a)), Loads(pending), rings, now).box
      ensures old(InSync()) && writeOk ==> InSync()
    {
      for i := 0 to |pending|
        invariant Valid() && Others(a) && View(a).runner.Some?
        invariant View(a) == PushBuffer(old(View(a)), Loads(pending[..i]), rings, now).box
        invariant old(InSync()) && writeOk ==> InSync()
      {
        PushBufferOneMore(old(View(a)), pending, i, rings, now);
        var _ := OfferMessage(a, pending[i].msg, now, writeOk);
      }
      assert pending[..|pending|] == pending;
    }

    /** `flushInboundBuffer`: the spool, then the pause queue, then the buffer. */
    method FlushInboundBuffer(a: string, now: int, writeOk: bool)
      requires Valid()
      modifies this`entries, this`spooled, this`drainHeld, this`pauseHeld, this`spoolPath, this`inboundAgentIds,
               inboundBuffer, disk`spool
      ensures Valid() && Others(a)
      ensures View(a) == Flush(old(View(a)), rings, now).box
      ensures old(InSync()) && writeOk ==> InSync()
    {
      var doSpool := DeliverSpoolFor(a, now, writeOk);
      FlushRest(a, doSpool, now, writeOk);
    }

    /** What `flushInboundBuffer` does once the spool has been tried. */
    method FlushRest(a: string, doSpool: seq<Item>, now: int, writeOk: bool)
      requires Valid()
      modifies this`entries, this`spooled, this`drainHeld, this`pauseHeld, this`spoolPath, this`inboundAgentIds,
               inboundBuffer, disk`spool
      ensures Valid() && Others(a)
      ensures View(a) == FlushBuffer(old(View(a)), doSpool, rings, now).box
      ensures old(InSync()) && writeOk ==> InSync()
    {
      var pending := DrainBuffer(a, now);
      if a in pausados {
        SegurarNaPausa(a, doSpool + pending, true);
        return;
      }
      if draining {
        HoldListForDrain(a, pending);
        return;
      }
      var _ := LiberarPausa(a);
      if a !in entries || entries[a].runner.None? || |pending| == 0 {
        assert Loads([]) == [];
        return;
      }
      PushBuffered(a, pending, now, writeOk);
    }

    method SetPaused(a: string, paused: bool)
      requires Valid()
      modifies this`pausados
      ensures Valid() && Others(a)
      ensures View(a) == old(View(a)).(paused := paused)
    {
      pausados := if paused then pausados + {a} else pausados - {a};
    }

    /** The start of a spawn: the pause state comes from the server, and a live runner is kept. */
    method Reconnect(a: string, paused: bool, now: int)
      requires Valid()
      modifies this`entries, this`pausados, this`pauseHeld, this`drainHeld
      ensures Valid() && Others(a)
      ensures View(a) == Custody.Reconnect(old(View(a)), paused, now).box
    {
      SetPaused(a, paused);
      if a in entries && entries[a].runner.Some? {
        if a in pausados {
          TirarDoRunnerParaPausa(a, now);
        } else {
          var _ := LiberarPausa(a);
        }
      }
    }

    /** The old runner stops, and what it had not started is retained. */
    method RetireRunner(a: string, now: int)
      requires Valid() && View(a).runner.Some?
      modifies this`entries, filaRetida
      ensures Valid() && OthersAtMostExpired(a, now)
      ensures View(a) == RetainQueue(KillTurn(old(View(a))).box, Replace, now, filaRetida.digest).box
    {
      StopRunner(a);
      RetainFromRunner(a, Replace, now);
    }

    method InstallRunner(a: string, runner: Runner, projectId: Option<string>)
      requires Valid()
      modifies this`entries
      ensures Valid() && Others(a)
      ensures View(a) == Replaced(old(View(a)), projectId, runner)
    {
      entries := entries[a := Entry(projectId, Some(runner.(queue := [], inFlight := None)), false)];
    }

    /** A spawn that replaces the runner: the old one's queue is retained first. */
    method Spawn(a: string, paused: bool, runner: Runner, projectId: Option<string>, now: int)
      requires Valid()
      modifies this`entries, this`pausados, filaRetida
      ensures Valid() && OthersAtMostExpired(a, now)
      ensures View(a) == Custody.Spawn(old(View(a)), paused, runner, projectId, now, filaRetida.digest).box
    {
      SetPaused(a, paused);
      if a in entries && entries[a].runner.Some? {
        RetireRunner(a, now);
      }
      InstallRunner(a, runner, projectId);
    }

    /** The end of a spawn, once the runner is up. */
    method SpawnDone(a: string, now: int, writeOk: bool)
      requires Valid()
      modifies this`entries, this`spooled, this`drainHeld, this`pauseHeld, this`spoolPath, this`inboundAgentIds,
               inboundBuffer, disk`spool
      ensures Valid() && Others(a)
      ensures View(a) == Custody.SpawnDone(old(View(a)), rings, now).box
      ensures old(InSync()) && writeOk ==> InSync()
    {
      if a in entries {
        entries := entries[a := entries[a].(parado := false)];
      }
      assert View(a) == Started(old(View(a)));
      FlushInboundBuffer(a, now, writeOk);
    }

    /* ---------- the handover to the next process ---------- */

    /** The retained items of the agents that have an entry join the drain queue, and stay retained. */
    method CollectRetained() returns (doSpool: set<string>)
      requires Valid()
      modifies this`drainHeld
      ensures Valid()
      ensures forall a :: View(a) == HoldRetained(old(View(a)))
      ensures doSpool == entries.Keys
    {
      doSpool := entries.Keys;
      var restantes := entries.Keys;
      while restantes != {}
        invariant Valid() && restantes <= entries.Keys
        invariant forall a :: View(a) == if a in restantes then old(View(a)) else HoldRetained(old(View(a)))
        decreases |restantes|
      {
        var a :| a in restantes;
        CollectRetainedOf(a);
        restantes := restantes - {a};
      }
    }

    method CollectRetainedOf(a: string)
      requires Valid() && a in entries
      modifies this`drainHeld
      ensures Valid() && Others(a)
      ensures View(a) == HoldRetained(old(View(a)))
    {
      HoldListForDrain(a, AsRetido(filaRetida.Listar(a)));
    }

    method CollectBufferOf(a: string, now: int)
      requires Valid() && a in inboundAgentIds
      modifies this`drainHeld, this`inboundAgentIds, inboundBuffer
      ensures Valid() && Others(a) && inboundAgentIds == old(inboundAgentIds) - {a}
      ensures View(a) == HoldBuffered(old(View(a)), now)
    {
      var pending := DrainBuffer(a, now);
      HoldListForDrain(a, pending);
      assert View(a).buffer == [];
    }

    method CollectBuffered(now: int)
      requires Valid()
      modifies this`drainHeld, this`inboundAgentIds, inboundBuffer
      ensures Valid()
      ensures forall a :: View(a) == HoldBuffered(old(View(a)), now)
    {
      while inboundAgentIds != {}
        invariant Valid() && inboundAgentIds <= old(inboundAgentIds)
        invariant forall a :: View(a) == if a in old(inboundAgentIds) - inboundAgentIds
                  then HoldBuffered(old(View(a)), now) else old(View(a))
        decreases |inboundAgentIds|
      {
        var a :| a in inboundAgentIds;
        label Antes:
        CollectBufferOf(a, now);
        forall b ensures View(b) == if b in old(inboundAgentIds) - inboundAgentIds then HoldBuffered(old(View(b)), now)
            else old(View(b)) {
          if b != a {
            assert View(b) == old@Antes(View(b));
          }
        }
      }
    }

    /** The loop over the pause queues, which are cleared only afterwards. */
    method HoldPauseQueues()
      requires Valid()
      modifies this`drainHeld
      ensures Valid()
      ensures forall a :: View(a) == HoldPaused(old(View(a))).(pauseHeld := old(View(a)).pauseHeld)
    {
      var restantes := pauseHeld.Keys;
      while restantes != {}
        invariant Valid() && restantes <= pauseHeld.Keys
        invariant forall a :: View(a) == if a in restantes then old(View(a))
                  else HoldPaused(old(View(a))).(pauseHeld := old(View(a)).pauseHeld)
        decreases |restantes|
      {
        var a :| a in restantes;
        label Antes:
        HoldListForDrain(a, AsPausa(pauseHeld[a]));
        restantes := restantes - {a};
        forall b ensures View(b) == if b in restantes then old(View(b))
            else HoldPaused(old(View(b))).(pauseHeld := old(View(b)).pauseHeld) {
          if b != a {
            assert View(b) == old@Antes(View(b));
          }
        }
      }
    }

    method CollectPaused()
      requires Valid()
      modifies this`drainHeld, this`pauseHeld
      ensures Valid()
      ensures forall a :: View(a) == HoldPaused(old(View(a)))
    {
      HoldPauseQueues();
      pauseHeld := map[];
    }

    /** The collecting part of `writeReexecSpool`. */
    method CollectAll(now: int) returns (doSpool: set<string>)
      requires Valid()
      modifies this`drainHeld, this`pauseHeld, this`inboundAgentIds, inboundBuffer
      ensures Valid() && doSpool == entries.Keys
      ensures forall a :: View(a) == Collect(old(View(a)), now)
    {
      doSpool := CollectRetained();
      CollectBuffered(now);
      CollectPaused();
      forall a ensures View(a) == Collect(old(View(a)), now) {
        CollectIsThreeRounds(old(View(a)), now);
      }
    }

    function ProjectOf(a: string): Option<string>
      reads this
    {
      if a in entries then entries[a].projectId else None
    }

    /** Seals one agent's list; what cannot be sealed is lost, and its id is reported. */
    method SealList(a: string, items: seq<Item>) returns (records: seq<Filed>, lostIds: seq<string>)
      ensures records == Tagged(a, SealAll(items, ProjectOf(a), rings))
      ensures forall id :: id in lostIds <==> id != "" && CarriesId(Lost(items, ProjectOf(a), rings), Some(id))
    {
      records, lostIds := [], [];
      for i := 0 to |items|
        invariant records == Tagged(a, SealAll(items[..i], ProjectOf(a), rings))
        invariant forall id :: id in lostIds <==> id != "" && CarriesId(Lost(items[..i], ProjectOf(a), rings), Some(id))
      {
        assert items[..i + 1][..i] == items[..i];
        var record := Seal(items[i], ProjectOf(a), rings);
        if record.Some? {
          records := records + [Filed(a, record.value)];
        } else {
          LostOneMore(Lost(items[..i], ProjectOf(a), rings), items[i], lostIds);
          if HasId(items[i].msg.id) {
            lostIds := lostIds + [items[i].msg.id.value];
          }
        }
      }
      assert items[..|items|] == items;
    }

    /** The ids that cannot be written, of the agents in `done`. */
    ghost predicate LostOfAgents(done: set<string>, lostIds: seq<string>)
      reads this
    {
      forall id :: id in lostIds <==>
        id != "" && exists a :: a in done && CarriesId(Lost(Get(drainHeld, a), ProjectOf(a), rings), Some(id))
    }

    /** The records sealed so far: none of the agents in `rest`, all of the others. */
    ghost predicate SealedBut(rest: set<string>, records: seq<Filed>)
      reads this
    {
      forall a :: OfAgent(records, a) == if a in rest then [] else SealAll(Get(drainHeld, a), ProjectOf(a), rings)
    }

    lemma SealedUnion(rest: set<string>, a: string, before: seq<Filed>)
      requires SealedBut(rest, before) && a in rest
      ensures SealedBut(rest - {a}, before + Tagged(a, SealAll(Get(drainHeld, a), ProjectOf(a), rings)))
    {
      var parte := Tagged(a, SealAll(Get(drainHeld, a), ProjectOf(a), rings));
      forall b ensures OfAgent(before + parte, b) == if b in rest - {a} then []
          else SealAll(Get(drainHeld, b), ProjectOf(b), rings) {
        OfAgentAppend(before, parte, b);
        OfAgentTagged(a, SealAll(Get(drainHeld, a), ProjectOf(a), rings), b);
      }
    }

    /** The sealing loop of `writeReexecSpool`. */
    method SealDrainHeld() returns (records: seq<Filed>, lostIds: seq<string>)
      ensures SealedBut({}, records)
      ensures LostOfAgents(drainHeld.Keys, lostIds)
    {
      records, lostIds := [], [];
      var restantes := drainHeld.Keys;
      while restantes != {}
        invariant restantes <= drainHeld.Keys
        invariant SealedBut(restantes, records)
        invariant LostOfAgents(drainHeld.Keys - restantes, lostIds)
        decreases |restantes|
      {
        var a :| a in restantes;
        var parte, ids := SealList(a, drainHeld[a]);
        SealedUnion(restantes, a, records);
        LostUnion(drainHeld.Keys - restantes, a, lostIds, ids);
        assert drainHeld.Keys - restantes + {a} == drainHeld.Keys - (restantes - {a});
        records, lostIds := records + parte, lostIds + ids;
        restantes := restantes - {a};
      }
    }

    lemma LostUnion(done: set<string>, a: string, before: seq<string>, ids: seq<string>)
      requires LostOfAgents(done, before)
      requires forall id :: id in ids <==> id != "" && CarriesId(Lost(Get(drainHeld, a), ProjectOf(a), rings), Some(id))
      ensures LostOfAgents(done + {a}, before + ids)
    {
    }

    method ForgetRetained(agents: set<string>)
      requires Valid()
      modifies filaRetida
      ensures Valid()
      ensures forall a :: View(a) == if a in agents then old(View(a)).(retained := []) else old(View(a))
    {
      var restantes := agents;
      while restantes != {}
        invariant Valid() && restantes <= agents
        invariant forall a :: View(a) == if a in agents - restantes then old(View(a)).(retained := []) else old(View(a))
        decreases |restantes|
      {
        var a :| a in restantes;
        var _ := filaRetida.Esquecer(a);
        restantes := restantes - {a};
      }
    }

    /** The file of everything sealed and everything still pending has, agent by agent, its records. */
    lemma FileHasRecords(sealed: seq<Filed>, pending: seq<Filed>, a: string, b: Box, now: int)
      requires SealedBut({}, sealed) && OfAgent(pending, a) == b.spooled
      requires Get(drainHeld, a) == Collected(b, now) && ProjectOf(a) == b.project
      ensures OfAgent(sealed + pending, a) == Records(b, now, rings)
    {
      OfAgentAppend(sealed, pending, a);
    }

    method DropDrainQueues()
      requires Valid()
      modifies this`drainHeld
      ensures Valid()
      ensures forall a :: View(a) == old(View(a)).(drainHeld := [])
    {
      drainHeld := map[];
    }

    /** The memory part of a write that went through. */
    method EmptyMemory(doSpool: set<string>)
      requires Valid() && doSpool == entries.Keys
      modifies this`drainHeld, this`spooled, filaRetida
      ensures Valid()
      ensures forall a :: View(a) == old(View(a)).(drainHeld := [], spooled := [], retained := if old(View(a)).known
              then [] else old(View(a)).retained)
    {
      drainHeld := map[];
      spooled := map[];
      ForgetRetained(doSpool);
    }

    /** An agent without a drain queue has nothing to lose. */
    lemma LostAnywhere(lostIds: seq<string>, id: string)
      requires LostOfAgents(drainHeld.Keys, lostIds)
      ensures id in lostIds <==>
              id != "" && exists a :: CarriesId(Lost(Get(drainHeld, a), ProjectOf(a), rings), Some(id))
    {
      forall a | a !in drainHeld ensures !CarriesId(Lost(Get(drainHeld, a), ProjectOf(a), rings), Some(id)) {
        assert Lost([], ProjectOf(a), rings) == [];
      }
    }

    /** Everything `writeReexecSpool` does before it touches the disk. */
    method PrepareSpool(now: int) returns (doSpool: set<string>, records: seq<Filed>, lostIds: seq<string>)
      requires Valid()
      modifies this`drainHeld, this`pauseHeld, this`inboundAgentIds, inboundBuffer
      ensures Valid() && doSpool == entries.Keys
      ensures forall a :: View(a) == Collect(old(View(a)), now)
      ensures forall a :: OfAgent(records, a) == Records(old(View(a)), now, rings)
      ensures forall id :: id in lostIds <==>
              id != "" && exists a :: CarriesId(LostOf(old(View(a)), now, rings), Some(id))
    {
      doSpool := CollectAll(now);
      var sealed;
      sealed, lostIds := SealDrainHeld();
      var pendentes := FlattenSpool();
      records := sealed + pendentes;
      forall a ensures OfAgent(records, a) == Records(old(View(a)), now, rings) {
        assert View(a) == Collect(old(View(a)), now);
        FileHasRecords(sealed, pendentes, a, old(View(a)), now);
      }
      forall id ensures id in lostIds <==>
        id != "" && exists a :: CarriesId(LostOf(old(View(a)), now, rings), Some(id)) {
        LostAnywhere(lostIds, id);
        forall a ensures Lost(Get(drainHeld, a), ProjectOf(a), rings) == LostOf(old(View(a)), now, rings) {
          assert View(a) == Collect(old(View(a)), now);
        }
      }
    }

    /** What `writeReexecSpool` does with the disk and, after the write, with memory. */
    method StoreSpool(doSpool: set<string>, records: seq<Filed>, lostIds: seq<string>, writeOk: bool)
      returns (r: SpoolWrite)
      requires Valid() && doSpool == entries.Keys
      modifies this`drainHeld, this`spooled, filaRetida, disk`spool
      ensures Valid()
      ensures r.Threw? ==>
                !writeOk && records != [] && disk.spool == old(disk.spool) && spooled == old(spooled) &&
                forall a :: View(a) == old(View(a))
      ensures r.Done? && !r.written ==>
                records == [] && disk.spool == old(disk.spool) && spooled == old(spooled) &&
                forall a :: View(a) == old(View(a)).(drainHeld := [])
      ensures r.Done? && r.written ==>
                disk.spool == Some(records) && writeOk &&
                forall a :: View(a) == old(View(a)).(drainHeld := [], spooled := [],
                  retained := if old(View(a)).known then [] else old(View(a)).retained)
      ensures r.Done? ==> r.lostDeliveryIds == lostIds
    {
      if |records| == 0 {
        DropDrainQueues();
        return Done(false, lostIds);
      }
      if !writeOk {
        return Threw;
      }
      disk.spool := Some(records);
      EmptyMemory(doSpool);
      return Done(true, lostIds);
    }

    /**
     * `writeReexecSpool`. An exception leaves everything in memory and the disk as it was; with
     * nothing to write the drain queues are dropped; otherwise memory is emptied after the write.
     */
    method WriteReexecSpool(now: int, writeOk: bool) returns (r: SpoolWrite)
      requires Valid()
      modifies this`drainHeld, this`pauseHeld, this`inboundAgentIds, this`spooled, inboundBuffer, filaRetida, disk`spool
      ensures Valid()
      ensures r.Threw? ==>
              !writeOk && disk.spool == old(disk.spool) && forall a :: View(a) == Collect(old(View(a)), now)
      ensures r.Done? && !r.written ==>
                disk.spool == old(disk.spool) &&
                forall a :: Records(old(View(a)), now, rings) == [] &&
                  View(a) == Collect(old(View(a)), now).(drainHeld := [])
      ensures r.Done? && r.written ==>
                disk.spool.Some? && writeOk &&
                forall a :: OfAgent(disk.spool.value, a) == Records(old(View(a)), now, rings) &&
                  View(a) == AfterWrite(old(View(a)), now)
      ensures r.Done? ==> forall id :: id in r.lostDeliveryIds <==>
              id != "" && exists a :: CarriesId(LostOf(old(View(a)), now, rings), Some(id))
      ensures r.Threw? || !r.written ==> spooled == old(spooled)
      ensures r.Threw? ==> exists a :: Records(old(View(a)), now, rings) != []
    {
      var doSpool, records, lostIds := PrepareSpool(now);
      r := StoreSpool(doSpool, records, lostIds, writeOk);
      if r.Threw? {
        ghost var a := records[|records| - 1].agentId;
        assert OfAgent(records, a) != [];
      }
    }

    /* ---------- the first moments of the next process ---------- */

    /** A record that waited too long goes to the retained queue, keeping its age. */
    method RetainOverdue(f: Filed, lido: Msg, now: int)
      requires Valid() && SealedFormat(f.record) && Outlived(f.record, now) && ReadRecord(f.record, rings) == Some(lido)
      modifies filaRetida
      ensures Valid()
      ensures forall a :: View(a) == LoadOne(old(View(a)), f, a, now, Env(filaRetida.digest, rings)).box
    {
      var _ := filaRetida.Reter(f.agentId,
        [Item(lido, if f.record.at == 0 then now else f.record.at, InboundTtl, false, false)], now);
    }

    /** One line of the file: wait for a spawn, go to the retained queue, or be lost. */
    method LoadRecord(f: Filed, now: int)
      requires Valid()
      modifies this`spooled, filaRetida
      ensures Valid()
      ensures forall a :: View(a) == LoadOne(old(View(a)), f, a, now, Env(filaRetida.digest, rings)).box
    {
      var r := f.record;
      if !SealedFormat(r) {
        return;
      }
      if now - r.at > (if r.pausa || r.retido then TTL_ITEM_MS else SPOOL_TTL_MS) {
        var lido := ReadRecord(r, rings);
        if lido.Some? {
          RetainOverdue(f, lido.value, now);
        }
        return;
      }
      spooled := spooled[f.agentId := Get(spooled, f.agentId) + [r]];
    }

    /** `loadReexecSpool`: the file as the previous process left it, line by line. */
    method LoadReexecSpool(now: int, writeOk: bool)
      requires Valid()
      modifies this`spooled, this`spoolPath, filaRetida, disk`spool
      ensures Valid()
      ensures forall a ::
                View(a) == Boot(old(View(a)), FileOf(old(disk.spool)), a, now, Env(filaRetida.digest, rings)).box
      ensures old(disk.spool).Some? ==> spoolPath || NothingSpooled()
      ensures old(disk.spool).Some? && writeOk ==> InSync()
      ensures old(disk.spool).None? && old(InSync()) ==> InSync()
    {
      if disk.spool.None? {
        return;
      }
      var file := disk.spool.value;
      spoolPath := true;
      for i := 0 to |file|
        invariant Valid() && spoolPath && disk.spool == old(disk.spool)
        invariant forall a :: View(a) == Boot(old(View(a)), file[..i], a, now, Env(filaRetida.digest, rings)).box
      {
        assert file[..i + 1][..i] == file[..i];
        LoadRecord(file[i], now);
      }
      assert file[..|file|] == file;
      PersistSpool(writeOk);
    }
  }
}
