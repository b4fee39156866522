/**
 * Where messages stand: who is in front of whom when queues are joined, which message a removal
 * takes, what an acknowledgement means, and that a member's message never waits.
 */
module CustodyPlaces {
  import opened Common
  import opened Messages
  import opened InboundDedup
  import opened QueueRetained
  import opened Custody
  import opened CustodyLaws
  import opened CustodyOrder
  import opened Reexec

  /* ---------- in front and behind ---------- */

  /** A pause puts what the runner had not started in front of what already waits. */
  lemma PausePutsQueueInFront(b: Box, now: int)
    requires !b.paused
    ensures var p := Pause(b, now).box;
            QueueOf(p) == [] &&
            (QueueOf(b) != [] ==> Loads(p.pauseHeld) == LastN(QueueOf(b) + Loads(b.pauseHeld), CAP_POR_AGENTE)) &&
            (QueueOf(b) == [] ==> p.pauseHeld == b.pauseHeld)
  {
    var items := Stamp(QueueOf(b), now);
    LoadsOfStamp(QueueOf(b), now);
    LoadsOfAppend(items, b.pauseHeld);
    LoadsOfLastN(items + b.pauseHeld, CAP_POR_AGENTE);
  }

  /** A flush of a paused agent puts the spool, then the buffer, in front of what already waits. */
  lemma PausedFlushOrder(b: Box, rings: Rings, now: int)
    requires b.paused && b.runner.Some?
    ensures var c := Flush(b, rings, now).box;
            var older := Readable(b.spooled, rings) + Loads(Fresh(b.buffer, now - INBOUND_TTL_MS));
            c.spooled == [] && c.buffer == [] &&
            (older != [] ==> Loads(c.pauseHeld) == LastN(older + Loads(b.pauseHeld), CAP_POR_AGENTE)) &&
            (older == [] ==> c.pauseHeld == b.pauseHeld)
  {
    var (spool, held) := DeliverSpool(b, rings, now);
    PausedDelivery(b, rings, now);
    var pending := Fresh(b.buffer, now - INBOUND_TTL_MS);
    LoadsOfAppend(held, pending);
    LoadsOfAppend(held + pending, b.pauseHeld);
    LoadsOfLastN(held + pending + b.pauseHeld, CAP_POR_AGENTE);
  }

  lemma PausedDelivery(b: Box, rings: Rings, now: int)
    requires b.paused && b.runner.Some?
    ensures var (o, held) := DeliverSpool(b, rings, now);
            o.box == b.(spooled := []) && Loads(held) == Readable(b.spooled, rings)
  {
    LoadsOfStamp(Readable(b.spooled, rings), now);
    assert Loads([]) == [];
  }

  /** No two items share a real id. */
  ghost predicate UniqueIds(items: seq<Item>) {
    forall i, j :: 0 <= i < j < |items| && HasId(items[i].msg.id) ==> items[i].msg.id != items[j].msg.id
  }

  lemma NotCarriedBefore(items: seq<Item>)
    requires UniqueIds(items) && items != [] && HasId(items[|items| - 1].msg.id)
    ensures !CarriesId(items[..|items| - 1], items[|items| - 1].msg.id)
  {
  }

  /** Without repeated ids, holding a list for the drain is appending it. */
  lemma {:induction false} UniqueAreAllHeld(held: seq<Item>, items: seq<Item>)
    requires UniqueIds(held + items)
    ensures HoldAllForDrain(held, items) == held + items
  {
    if items == [] {
      assert held + items == held;
    } else {
      var init, last := items[..|items| - 1], items[|items| - 1];
      var all := held + items;
      assert all[..|all| - 1] == held + init && all[|all| - 1] == last;
      UniqueAreAllHeld(held, init);
      if HasId(last.msg.id) {
        NotCarriedBefore(all);
      }
      assert held + init + [last] == held + items;
    }
  }

  /** A flush while the host drains holds the spool, without ids, and then the buffer behind what is held already. */
  lemma DrainingFlushOrder(b: Box, rings: Rings, now: int)
    requires b.draining && !b.paused && b.runner.Some?
    requires UniqueIds(b.drainHeld + Stamp(WithoutIds(Readable(b.spooled, rings)), now) +
                       Fresh(b.buffer, now - INBOUND_TTL_MS))
    ensures var o := Flush(b, rings, now);
            && o.box == b.(spooled := [], buffer := [], listed := false, drainHeld := o.box.drainHeld)
            && o.box.drainHeld == b.drainHeld + Stamp(WithoutIds(Readable(b.spooled, rings)), now) +
                                  Fresh(b.buffer, now - INBOUND_TTL_MS)
            && o.pushed == []
  {
    var (spool, held) := DeliverSpool(b, rings, now);
    assert spool.box == b.(spooled := [], drainHeld := b.drainHeld +
                           Stamp(WithoutIds(Readable(b.spooled, rings)), now)) by {
      if b.spooled == [] {
        assert b.drainHeld + [] == b.drainHeld;
      }
    }
    UniqueAreAllHeld(spool.box.drainHeld, Fresh(b.buffer, now - INBOUND_TTL_MS));
  }

  /** A resume while the host drains moves the pause queue behind what the drain holds. */
  lemma DrainingResumeOrder(b: Box)
    requires b.draining && b.paused && b.runner.Some? && !b.parado && b.spooled == []
    requires UniqueIds(b.drainHeld + b.pauseHeld)
    ensures var o := Resume(b);
            o.box == b.(paused := false, pauseHeld := [], drainHeld := b.drainHeld + b.pauseHeld) && o.pushed == []
  {
    UniqueAreAllHeld(b.drainHeld, b.pauseHeld);
    if b.pauseHeld == [] {
      assert b.drainHeld + [] == b.drainHeld;
    }
  }

  /** What a shutdown with a drain holds for the next process, before it collects the rest. */
  function Shut(b: Box, now: int): Box {
    HoldInFlight(StartDrain(b, now).box, now).box
  }

  lemma UniqueSuffix(a: seq<Item>, b: seq<Item>)
    requires UniqueIds(a + b)
    ensures UniqueIds(b)
  {
    forall i, j | 0 <= i < j < |b| && HasId(b[i].msg.id) ensures b[i].msg.id != b[j].msg.id {
      assert (a + b)[|a| + i] == b[i] && (a + b)[|a| + j] == b[j];
    }
  }

  lemma DrainAppends(b: Box, now: int)
    requires UniqueIds(b.drainHeld + Stamp(QueueOf(b), now))
    ensures var c := StartDrain(b, now).box;
            c == b.(draining := true, drainHeld := b.drainHeld + Stamp(QueueOf(b), now), runner := c.runner) &&
            QueueOf(c) == [] && InFlightOf(c) == InFlightOf(b)
  {
    UniqueAreAllHeld(b.drainHeld, Stamp(QueueOf(b), now));
    if b.runner.None? {
      assert b.drainHeld + [] == b.drainHeld;
    }
  }

  lemma InFlightGoesFirst(c: Box, now: int)
    requires UniqueIds(Stamp(InFlightOf(c), now) + c.drainHeld)
    ensures var d := HoldInFlight(c, now).box;
            d == c.(drainHeld := Stamp(InFlightOf(c), now) + c.drainHeld, runner := d.runner) &&
            QueueOf(d) == QueueOf(c) && InFlightOf(d) == []
  {
    if InFlightOf(c) == [] {
      assert Stamp([], now) + c.drainHeld == c.drainHeld;
    } else {
      var all := Stamp(InFlightOf(c), now) + c.drainHeld;
      assert all[0] == Plain(InFlightOf(c)[0], now) && all[1..] == c.drainHeld;
      if HasId(all[0].msg.id) {
        InFlightNotHeld(all, c.drainHeld);
      }
      assert Stamp(InFlightOf(c), now) == [Plain(InFlightOf(c)[0], now)];
    }
  }

  lemma ShutHolds(b: Box, now: int)
    requires UniqueIds(Stamp(InFlightOf(b), now) + (b.drainHeld + Stamp(QueueOf(b), now)))
    ensures Shut(b, now).drainHeld == Stamp(InFlightOf(b), now) + (b.drainHeld + Stamp(QueueOf(b), now))
    ensures var c := Shut(b, now);
            c == b.(draining := true, drainHeld := c.drainHeld, runner := c.runner) && QueueOf(c) == [] &&
              InFlightOf(c) == []
  {
    UniqueSuffix(Stamp(InFlightOf(b), now), b.drainHeld + Stamp(QueueOf(b), now));
    DrainAppends(b, now);
    InFlightGoesFirst(StartDrain(b, now).box, now);
  }

  lemma InFlightNotHeld(all: seq<Item>, held: seq<Item>)
    requires UniqueIds(all) && all != [] && all[1..] == held && HasId(all[0].msg.id)
    ensures !CarriesId(held, all[0].msg.id)
  {
    forall i | 0 <= i < |held| ensures held[i].msg.id != all[0].msg.id {
      assert all[1 + i] == held[i];
    }
  }

  /**
   * The order across a shutdown: with distinct ids, the next process reads the turn that was in
   * flight first, then what the drain had held, the runner's queue, the retained queue, the buffer,
   * the pause queue and what still opens of the old spool, each in its own order.
   */
  lemma ShutdownKeepsOrder(b: Box, t: int, now: int, rings: Rings, rings': Rings)
    requires KeyReady(b.project, rings) && SoundRings(rings') && KeyCarriedOver(b.project, rings, rings')
    requires UniqueIds(Stamp(InFlightOf(b), t) + (b.drainHeld + Stamp(QueueOf(b), t)) + Incoming(b, now))
    ensures Readable(Records(Shut(b, t), now, rings), rings') ==
            InFlightOf(b) + Loads(b.drainHeld) + QueueOf(b) + Loads(Incoming(b, now)) + Readable(b.spooled, rings')
  {
    var first := Stamp(InFlightOf(b), t) + (b.drainHeld + Stamp(QueueOf(b), t));
    UniquePrefix(first, Incoming(b, now));
    ShutHolds(b, t);
    UniqueAreAllHeld(first, Incoming(b, now));
    SpoolRoundTrip(Shut(b, t), now, rings, rings');
    LoadsInTurn(InFlightOf(b), b.drainHeld, QueueOf(b), Incoming(b, now), t);
  }

  lemma LoadsInTurn(turn: seq<Msg>, held: seq<Item>, queue: seq<Msg>, more: seq<Item>, t: int)
    ensures Loads(Stamp(turn, t) + (held + Stamp(queue, t)) + more) == turn + Loads(held) + queue + Loads(more)
  {
    LoadsOfAppend(Stamp(turn, t) + (held + Stamp(queue, t)), more);
    LoadsOfAppend(Stamp(turn, t), held + Stamp(queue, t));
    LoadsOfAppend(held, Stamp(queue, t));
    LoadsOfStamp(turn, t);
    LoadsOfStamp(queue, t);
    assert turn + (Loads(held) + queue) == turn + Loads(held) + queue;
  }

  lemma UniquePrefix(a: seq<Item>, b: seq<Item>)
    requires UniqueIds(a + b)
    ensures UniqueIds(a)
  {
    forall i, j | 0 <= i < j < |a| && HasId(a[i].msg.id) ensures a[i].msg.id != a[j].msg.id {
      assert (a + b)[i] == a[i] && (a + b)[j] == a[j];
    }
  }

  /* ---------- what an answer means ---------- */

  /** A retry adds to the runner's queue and takes nothing from it. */
  lemma RetryAppends(b: Box, rings: Rings, now: int)
    ensures QueueOf(b) <= QueueOf(QueueChanged(b, rings, now).box)
  {
    if b.runner.Some? && !b.paused && !b.draining {
      SpoolIsFifo(b.runner.value, b.spooled, rings);
    }
  }

  lemma {:induction false} HookAppends(b: Box, times: nat, rings: Rings, now: int)
    ensures QueueOf(b) <= QueueOf(Told(b, times, rings, now).box)
    decreases times
  {
    if times > 0 {
      HookAppends(b, times - 1, rings, now);
      RetryAppends(Told(b, times - 1, rings, now).box, rings, now);
    }
  }

  /**
   * An acknowledged delivery stands behind the runner's queue, in front of what a call of the hook adds; or, in
   * a pause, waits under its id, and one without an id waits only if no other without an id did before. A
   * delivery that is not acknowledged left no trace but the push.
   */
  lemma AckMeansKept(b: Box, m: Msg, rings: Rings, now: int)
    ensures var (o, ok) := QueueDeliver(b, m, rings, now);
            && (ok && !b.paused ==> QueueOf(b) + [m] <= QueueOf(o.box) && o.box.pauseHeld == b.pauseHeld)
            && (ok && b.paused && m.id.Some? ==> CarriesId(o.box.pauseHeld, m.id))
            && (ok && b.paused && m.id.None? ==>
              if CarriesId(b.pauseHeld, None) then o.box == b && o.gone == [Gone(Duplicate, m)]
              else o.box.pauseHeld != [] && o.box.pauseHeld[|o.box.pauseHeld| - 1] == Plain(m, now))
            && (!ok ==> o.entered == [] && o.gone == [] && QueueOf(o.box) == QueueOf(b))
            && (!ok ==> o.box.(runner := b.runner) == b)
  {
    if b.runner.Some? && !b.paused {
      HookAppends(Delivered(b, m).box, Calls(b.runner.value, m), rings, now);
      ToldSteady(Delivered(b, m).box, Calls(b.runner.value, m), rings, now);
    } else if b.runner.Some? && !CarriesId(b.pauseHeld, m.id) {
      var held := HoldAtPause(b.pauseHeld, [Plain(m, now)], false);
      assert held[|held| - 1] == Plain(m, now);
    }
  }

  /** What a removal looks through, in its order: the runner, the buffer, the drain queue, the pause queue. */
  function InLine(b: Box): seq<Msg> {
    QueueOf(b) + Loads(b.buffer) + Loads(b.drainHeld) + Loads(b.pauseHeld)
  }

  /** The first message there with the asked id. */
  function Wanted(b: Box, id: string): seq<Msg> {
    var k := FirstWithId(InLine(b), id);
    if k < |InLine(b)| then [InLine(b)[k]] else []
  }

  /** A removal takes the first message with the asked id, and nothing else. */
  lemma RemovalFinds(b: Box, id: string)
    ensures var gone := Remove(b, id).gone;
            && gone == Fated(Removed, Wanted(b, id))
            && (gone == [] <==> NobodyHas(b, id)) && (gone == [] ==> Remove(b, id).box == b)
  {
    var q := FirstWithId(QueueOf(b), id);
    var i, d, p := FirstWithId(Loads(b.buffer), id), FirstWithId(Loads(b.drainHeld), id),
      FirstWithId(Loads(b.pauseHeld), id);
    RemovalAt(b, q, i, d, p, id);
    FirstOfFour(QueueOf(b), Loads(b.buffer), Loads(b.drainHeld), Loads(b.pauseHeld), id);
    RemovalTakes(b, q, i, d, p);
  }

  /** What it looked through is then the same list without that message. */
  lemma RemovalSplices(b: Box, id: string)
    ensures InLine(Remove(b, id).box) == Without(InLine(b), FirstWithId(InLine(b), id))
  {
    var x, y, z, w := QueueOf(b), Loads(b.buffer), Loads(b.drainHeld), Loads(b.pauseHeld);
    RemovalLeaves(b, FirstWithId(x, id), FirstWithId(y, id), FirstWithId(z, id), FirstWithId(w, id));
    SpliceTwo(x, y, id);
    SpliceTwo(x + y, z, id);
    SpliceTwo(x + y + z, w, id);
  }

  lemma SpliceTwo(front: seq<Msg>, behind: seq<Msg>, id: string)
    ensures Without(front + behind, FirstWithId(front + behind, id)) ==
            if FirstWithId(front, id) < |front| then Without(front, FirstWithId(front, id)) + behind
            else front + Without(behind, FirstWithId(behind, id))
    ensures FirstWithId(front + behind, id) < |front + behind| <==>
            FirstWithId(front, id) < |front| || FirstWithId(behind, id) < |behind|
  {
    var i, j := FirstWithId(front, id), FirstWithId(behind, id);
    var n := if i < |front| then i else |front| + j;
    FirstInLine(front, behind, i, j, id);
    WithoutAcross(front, behind, n);
    assert FirstWithId(front + behind, id) == n;
  }

  lemma WithoutAcross(front: seq<Msg>, behind: seq<Msg>, n: nat)
    ensures Without(front + behind, n) ==
            if n < |front| then Without(front, n) + behind else front + Without(behind, n - |front|)
  {
    if |front| <= n < |front + behind| {
      assert (front + behind)[..n] == front + behind[..n - |front|];
    }
  }

  lemma RemovalLeaves(b: Box, q: nat, i: nat, d: nat, p: nat)
    ensures var x, y, z, w := QueueOf(b), Loads(b.buffer), Loads(b.drainHeld), Loads(b.pauseHeld);
            InLine(RemoveAt(b, q, i, d, p).box) ==
            if q < |x| then Without(x, q) + y + z + w else if i < |y| then x + Without(y, i) + z + w
            else if d < |z| then x + y + Without(z, d) + w else x + y + z + Without(w, p)
  {
    LoadsOfWithout(b.buffer, i);
    LoadsOfWithout(b.drainHeld, d);
    LoadsOfWithout(b.pauseHeld, p);
  }

  /** What stands first in four lists. */
  function FirstAt(x: seq<Msg>, y: seq<Msg>, z: seq<Msg>, w: seq<Msg>, i: nat, j: nat, k: nat, l: nat): seq<Msg> {
    if i < |x| then [x[i]] else if j < |y| then [y[j]] else if k < |z| then [z[k]] else if l < |w| then [w[l]] else []
  }

  lemma RemovalTakes(b: Box, q: nat, i: nat, d: nat, p: nat)
    ensures RemoveAt(b, q, i, d, p).gone ==
            Fated(Removed, FirstAt(QueueOf(b), Loads(b.buffer), Loads(b.drainHeld), Loads(b.pauseHeld), q, i, d, p))
  {
  }

  lemma FirstOfFour(x: seq<Msg>, y: seq<Msg>, z: seq<Msg>, w: seq<Msg>, id: string)
    ensures var k, all := FirstWithId(x + y + z + w, id), x + y + z + w;
            (if k < |all| then [all[k]] else []) ==
            FirstAt(x, y, z, w, FirstWithId(x, id), FirstWithId(y, id), FirstWithId(z, id), FirstWithId(w, id))
  {
    FirstInLine(x, y, FirstWithId(x, id), FirstWithId(y, id), id);
    FirstInLine(x + y, z, FirstWithId(x + y, id), FirstWithId(z, id), id);
    FirstInLine(x + y + z, w, FirstWithId(x + y + z, id), FirstWithId(w, id), id);
  }

  /** The first in two lists is the first of the one in front, or else of the one behind. */
  lemma FirstInLine(front: seq<Msg>, behind: seq<Msg>, i: nat, j: nat, id: string)
    requires Stands(front, i, id) && Stands(behind, j, id)
    ensures FirstWithId(front + behind, id) == if i < |front| then i else |front| + j
  {
    var at := if i < |front| then i else |front| + j;
    forall n | 0 <= n < at ensures (front + behind)[n].id != Some(id) {
      if n >= |front| {
        assert (front + behind)[n] == behind[n - |front|];
      }
    }
    StandsOnce(front + behind, FirstWithId(front + behind, id), at, id);
  }

  lemma StandsOnce(msgs: seq<Msg>, k: nat, j: nat, id: string)
    requires Stands(msgs, k, id) && Stands(msgs, j, id)
    ensures k == j
  {
  }

  ghost predicate NobodyHas(b: Box, id: string) {
    && (forall k :: 0 <= k < |QueueOf(b)| ==> QueueOf(b)[k].id != Some(id))
    && (forall k :: 0 <= k < |b.buffer| ==> Loads(b.buffer)[k].id != Some(id))
    && (forall k :: 0 <= k < |b.drainHeld| ==> Loads(b.drainHeld)[k].id != Some(id))
    && (forall k :: 0 <= k < |b.pauseHeld| ==> Loads(b.pauseHeld)[k].id != Some(id))
  }

  /** `k` is where the id first stands in the list. */
  ghost predicate Stands(msgs: seq<Msg>, k: nat, id: string) {
    && k <= |msgs| && (k < |msgs| ==> msgs[k].id == Some(id))
    && forall j :: 0 <= j < k ==> msgs[j].id != Some(id)
  }

  lemma RemovalAt(b: Box, q: nat, i: nat, d: nat, p: nat, id: string)
    requires Stands(QueueOf(b), q, id) && Stands(Loads(b.buffer), i, id) && Stands(Loads(b.drainHeld), d, id) &&
             Stands(Loads(b.pauseHeld), p, id)
    ensures var o := RemoveAt(b, q, i, d, p);
            && |o.gone| <= 1 && (o.gone != [] ==> o.gone[0].fate == Removed && o.gone[0].msg.id == Some(id))
            && (o.gone == [] <==> NobodyHas(b, id)) && (o.gone == [] ==> o.box == b)
  {
  }

  /* ---------- members ---------- */

  /** Unless the agent is paused, a member's message is with the runner at once or is turned away. */
  lemma MembersNeverWait(b: Box, m: Msg, now: int, digest: Digest)
    requires m.member && !b.paused
    ensures var o := Send(b, m, now, digest);
            && o.box.(runner := b.runner) == b
            && (QueueOf(o.box) == QueueOf(b) + [m] ||
              (QueueOf(o.box) == QueueOf(b) && |o.gone| == 1 && o.gone[0].msg == m))
            && (o.pushed != [] ==> !b.draining && b.spooled == [] && !b.parado && !Gated(b.runner.value, m))
  {
    if b.runner.Some? {
      assert b.(runner := Some(b.runner.value)) == b;
    }
  }

  /** And when the pause ends, the gate is asked again for each of them. */
  lemma {:induction false} GateIsAskedOnRelease(r: Runner, msgs: seq<Msg>, k: nat)
    requires (forall n: nat :: r.blocked(n)) && k < |msgs| && msgs[k].member
    ensures msgs[k] in MsgsOf(PushAll(r, msgs).gone)
    ensures forall i :: 0 <= i < |PushAll(r, msgs).pushed| ==> !PushAll(r, msgs).pushed[i].msg.member
    ensures PushAll(r, msgs).runner.blocked == r.blocked
    decreases |msgs|
  {
    var init, last := msgs[..|msgs| - 1], msgs[|msgs| - 1];
    if k < |init| {
      GateIsAskedOnRelease(r, init, k);
      var gone := PushAll(r, init).gone;
      assert MsgsOf(gone + [Gone(GateRejected, last)]) == MsgsOf(gone) + [last];
      assert MsgsOf(gone + [Gone(Refused, last)]) == MsgsOf(gone) + [last];
    } else {
      NoMemberGetsThrough(r, init);
      var gone := PushAll(r, init).gone;
      assert MsgsOf(gone + [Gone(GateRejected, last)]) == MsgsOf(gone) + [last];
    }
  }

  lemma {:induction false} NoMemberGetsThrough(r: Runner, msgs: seq<Msg>)
    requires forall n: nat :: r.blocked(n)
    ensures forall i :: 0 <= i < |PushAll(r, msgs).pushed| ==> !PushAll(r, msgs).pushed[i].msg.member
    ensures PushAll(r, msgs).runner.blocked == r.blocked
  {
    if msgs != [] {
      NoMemberGetsThrough(r, msgs[..|msgs| - 1]);
    }
  }
}
