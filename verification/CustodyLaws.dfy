/** Whole-run laws of message custody: nothing vanishes, paused agents are left alone, order is kept. */
module CustodyLaws {
  import opened Common
  import opened KeyedFifo
  import opened Messages
  import opened InboundDedup
  import opened QueueRetained
  import opened Custody

  /* ---------- counting ---------- */

  function CountItems(items: seq<Item>, m: Msg): nat {
    Count(Loads(items), m)
  }

  function CountGone(gone: seq<Gone>, m: Msg): nat {
    Count(MsgsOf(gone), m)
  }

  lemma CountOfAppend(a: seq<Msg>, b: seq<Msg>, m: Msg)
    ensures Count(a + b, m) == Count(a, m) + Count(b, m)
  {
  }

  lemma ItemsOfAppend(a: seq<Item>, b: seq<Item>, m: Msg)
    ensures CountItems(a + b, m) == CountItems(a, m) + CountItems(b, m)
  {
    LoadsOfAppend(a, b);
  }

  lemma GoneOfAppend(a: seq<Gone>, b: seq<Gone>, m: Msg)
    ensures CountGone(a + b, m) == CountGone(a, m) + CountGone(b, m)
  {
    assert MsgsOf(a + b) == MsgsOf(a) + MsgsOf(b);
  }

  lemma GoneOfFated(fate: Fate, msgs: seq<Msg>, m: Msg)
    ensures CountGone(Fated(fate, msgs), m) == Count(msgs, m)
  {
    assert MsgsOf(Fated(fate, msgs)) == msgs;
  }

  lemma GoneOfOne(g: Gone, m: Msg)
    ensures CountGone([g], m) == if g.msg == m then 1 else 0
  {
    assert MsgsOf([g]) == [g.msg];
  }

  lemma ItemsOfOne(item: Item, m: Msg)
    ensures CountItems([item], m) == if item.msg == m then 1 else 0
  {
    assert Loads([item]) == [item.msg];
  }

  lemma ThenBalances(b: Box, first: Outcome, second: Outcome, m: Msg)
    requires Balanced(b, first, m) && Balanced(first.box, second, m)
    ensures Balanced(b, Then(first, second), m)
  {
    GoneOfAppend(first.gone, second.gone, m);
    CountOfAppend(first.entered, second.entered, m);
  }

  /* ---------- the parts ---------- */

  lemma {:induction false} PushAllBalances(r: Runner, msgs: seq<Msg>, m: Msg)
    ensures var d := PushAll(r, msgs);
            Count(r.queue, m) + Count(msgs, m) == Count(d.runner.queue, m) + CountGone(d.gone, m) &&
            d.runner.inFlight == r.inFlight
  {
    if msgs != [] {
      var init, last := msgs[..|msgs| - 1], msgs[|msgs| - 1];
      PushAllBalances(r, init, m);
      assert msgs == init + [last];
      var d := PushAll(r, init);
      GoneOfAppend(d.gone, [Gone(GateRejected, last)], m);
      GoneOfAppend(d.gone, [Gone(Refused, last)], m);
      GoneOfOne(Gone(GateRejected, last), m);
      GoneOfOne(Gone(Refused, last), m);
    }
  }

  lemma HoldAtPauseBalances(held: seq<Item>, items: seq<Item>, front: bool, m: Msg)
    ensures CountItems(held, m) + CountItems(items, m) ==
            CountItems(HoldAtPause(held, items, front), m) + CountItems(PushedOutOfPause(held, items, front), m)
  {
    var all := if front then items + held else held + items;
    CutAndKept(all, CAP_POR_AGENTE);
    ItemsOfAppend(CutOff(all, CAP_POR_AGENTE), LastN(all, CAP_POR_AGENTE), m);
    ItemsOfAppend(items, held, m);
    ItemsOfAppend(held, items, m);
  }

  lemma HoldForDrainBalances(held: seq<Item>, item: Item, primeiro: bool, m: Msg)
    ensures CountItems(HoldForDrain(held, item, primeiro), m) ==
            CountItems(held, m) + if (HasId(item.msg.id) && CarriesId(held, item.msg.id)) || item.msg != m then 0 else 1
  {
    ItemsOfOne(item, m);
    ItemsOfAppend([item], held, m);
    ItemsOfAppend(held, [item], m);
  }

  lemma {:induction false} HoldAllBalances(held: seq<Item>, items: seq<Item>, m: Msg)
    ensures CountItems(held, m) + CountItems(items, m) ==
            CountItems(HoldAllForDrain(held, items), m) + CountItems(DrainDuplicates(held, items), m)
  {
    if items != [] {
      var init, last := items[..|items| - 1], items[|items| - 1];
      HoldAllBalances(held, init, m);
      HoldForDrainBalances(HoldAllForDrain(held, init), last, false, m);
      assert items == init + [last];
      ItemsOfOne(last, m);
      ItemsOfAppend(init, [last], m);
      ItemsOfAppend(DrainDuplicates(held, init), [last], m);
    }
  }

  lemma FreshBalances(items: seq<Item>, cutoff: int, m: Msg)
    ensures CountItems(items, m) == CountItems(Fresh(items, cutoff), m) + CountItems(Stale(items, cutoff), m)
  {
    FreshAndStale(items, cutoff);
  }

  lemma {:induction false} AcceptedOrRefused(itens: seq<Item>, novos: seq<Item>, digest: Digest, m: Msg)
    ensures CountItems(novos, m) == CountItems(Aceitos(itens, novos, digest), m) +
            CountItems(Recusados(itens, novos, digest), m)
  {
    if novos != [] {
      var init, last := novos[..|novos| - 1], novos[|novos| - 1];
      AcceptedOrRefused(itens, init, digest, m);
      assert novos == init + [last];
      ItemsOfAppend(init, [last], m);
      ItemsOfAppend(Aceitos(itens, init, digest), [last], m);
      ItemsOfAppend(Recusados(itens, init, digest), [last], m);
    }
  }

  lemma RetainBalances(b: Box, novos: seq<Item>, now: int, digest: Digest, m: Msg)
    requires |b.retained| <= CAP_POR_AGENTE
    ensures var o := Retain(b, novos, now, digest);
            Held(b, m) + CountItems(novos, m) == Held(o.box, m) + CountGone(o.gone, m)
  {
    var vivos, cutoff := Vivos(b.retained, now), now - TTL_ITEM_MS;
    FreshBalances(b.retained, cutoff, m);
    FreshAndStale(b.retained, cutoff);
    RetainedAccounts(vivos, novos, digest);
    AcceptedOrRefused(vivos, novos, digest, m);
    ItemsOfAppend(vivos, Aceitos(vivos, novos, digest), m);
    var out := Descartados(vivos, novos, digest);
    ItemsOfAppend(out, Retained(vivos, novos, digest), m);
    var e, d, x := Fated(Expired, Loads(Stale(b.retained, cutoff))),
      Fated(Duplicate, Loads(Recusados(vivos, novos, digest))), Fated(Evicted, Loads(out));
    GoneOfAppend(e + d, x, m);
    GoneOfAppend(e, d, m);
    GoneOfFated(Expired, Loads(Stale(b.retained, cutoff)), m);
    GoneOfFated(Duplicate, Loads(Recusados(vivos, novos, digest)), m);
    GoneOfFated(Evicted, Loads(out), m);
  }

  lemma RetainQueueBalances(b: Box, source: Source, now: int, digest: Digest, m: Msg)
    requires |b.retained| <= CAP_POR_AGENTE
    ensures Balanced(b, RetainQueue(b, source, now, digest), m)
  {
    if QueueOf(b) != [] {
      var items := WithSource(QueueOf(b), now, source);
      assert Loads(items) == QueueOf(b);
      RetainBalances(b.(runner := Some(b.runner.value.(queue := []))), items, now, digest, m);
    }
  }

  /* ---------- the spool ---------- */

  lemma RecordsOfCons(rs: seq<Record>, m: Msg)
    requires rs != []
    ensures Count(RecordMsgs(rs), m) == Count(RecordMsgs(rs[1..]), m) + if RecordMsg(rs[0]) == m then 1 else 0
  {
    assert RecordMsgs(rs) == [RecordMsg(rs[0])] + RecordMsgs(rs[1..]);
  }

  /** A record that opens carries the message it was sealed with. */
  lemma ReadIsRecordMsg(r: Record, rings: Rings)
    ensures ReadRecord(r, rings).Some? && (r.blob.V2? || r.blob.V0?) ==> ReadRecord(r, rings).value == RecordMsg(r)
  {
    if r.project in rings && (r.blob.V2? || r.blob.V0?) {
      var ring := rings[r.project];
      if ring.active.Some? {
        KeyRing.FirstOpeningFinds([ring.active.value] + ring.older, r.blob, Some(SpoolAad(r.project)));
      }
    }
  }

  /** The spool only holds `e2e:v2:` blobs. */
  ghost predicate SealedSpool(rs: seq<Record>) {
    forall i :: 0 <= i < |rs| ==> rs[i].blob.V2? || rs[i].blob.Broken?
  }

  lemma BrokenNeverOpens(r: Record, rings: Rings)
    requires r.blob.Broken?
    ensures ReadRecord(r, rings).None?
  {
    if r.project in rings && rings[r.project].active.Some? {
      NothingOpensBroken([rings[r.project].active.value] + rings[r.project].older, Some(SpoolAad(r.project)));
    }
  }

  lemma {:induction false} NothingOpensBroken(keys: seq<KeyRing.Key>, aad: Option<string>)
    ensures KeyRing.FirstOpening(keys, KeyRing.Broken, aad).None?
  {
    if keys != [] {
      NothingOpensBroken(keys[1..], aad);
    }
  }

  lemma {:induction false} ReadingBalances(rs: seq<Record>, rings: Rings, m: Msg)
    requires SealedSpool(rs)
    ensures Count(RecordMsgs(rs), m) == Count(Readable(rs, rings), m) + Count(UnreadableMsgs(rs, rings), m)
  {
    if rs != [] {
      ReadingBalances(rs[1..], rings, m);
      RecordsOfCons(rs, m);
      ReadIsRecordMsg(rs[0], rings);
      if rs[0].blob.Broken? {
        BrokenNeverOpens(rs[0], rings);
      }
    }
  }

  lemma {:induction false} PushSpoolBalances(r: Runner, rs: seq<Record>, rings: Rings, m: Msg)
    requires SealedSpool(rs)
    ensures var s := PushSpool(r, rs, rings);
            Count(r.queue, m) + Count(RecordMsgs(rs), m) == Count(s.runner.queue, m) + Count(RecordMsgs(s.rest), m) +
              CountGone(s.gone, m) &&
            s.runner.inFlight == r.inFlight
    decreases |rs|
  {
    if rs != [] {
      RecordsOfCons(rs, m);
      ReadIsRecordMsg(rs[0], rings);
      if rs[0].blob.Broken? {
        BrokenNeverOpens(rs[0], rings);
      }
      match ReadRecord(rs[0], rings)
      case None =>
        PushSpoolBalances(r, rs[1..], rings, m);
        GoneOfAppend([Gone(Unreadable, RecordMsg(rs[0]))], PushSpool(r, rs[1..], rings).gone, m);
        GoneOfOne(Gone(Unreadable, RecordMsg(rs[0])), m);
      case Some(msg) =>
        var (r', ok) := PushTo(r, msg);
        if ok {
          PushSpoolBalances(r', rs[1..], rings, m);
        }
    }
  }

  lemma SpoolToDrainBalances(b: Box, rings: Rings, now: int, m: Msg)
    requires SealedSpool(b.spooled) && b.spooled != [] && b.runner.Some? && !b.paused && b.draining
    ensures Balanced(b, DeliverSpool(b, rings, now).0, m)
  {
    var readable, bad := Readable(b.spooled, rings), UnreadableMsgs(b.spooled, rings);
    var nameless := WithoutIds(readable);
    ReadingBalances(b.spooled, rings, m);
    LoadsOfStamp(nameless, now);
    ItemsOfAppend(b.drainHeld, Stamp(nameless, now), m);
    GoneOfAppend(Fated(Unreadable, bad), Fated(Renamed, readable), m);
    GoneOfFated(Unreadable, bad, m);
    GoneOfFated(Renamed, readable, m);
  }

  lemma SpoolToPauseBalances(b: Box, rings: Rings, now: int, m: Msg)
    requires SealedSpool(b.spooled) && b.spooled != [] && b.runner.Some? && b.paused
    ensures SpoolBalanced(b, rings, now, m)
  {
    ReadingBalances(b.spooled, rings, m);
    GoneOfFated(Unreadable, UnreadableMsgs(b.spooled, rings), m);
    LoadsOfStamp(Readable(b.spooled, rings), now);
  }

  lemma SpoolToRunnerBalances(b: Box, rings: Rings, now: int, m: Msg)
    requires SealedSpool(b.spooled) && b.spooled != [] && b.runner.Some? && !b.paused && !b.draining
    ensures SpoolBalanced(b, rings, now, m)
  {
    PushSpoolBalances(b.runner.value, b.spooled, rings, m);
    assert Loads([]) == [];
  }

  /** What a delivery of the spool owes: also what it hands back to a paused agent. */
  ghost predicate SpoolBalanced(b: Box, rings: Rings, now: int, m: Msg) {
    var (o, held) := DeliverSpool(b, rings, now);
    Held(b, m) + Count(o.entered, m) == Held(o.box, m) + CountGone(o.gone, m) + CountItems(held, m)
  }

  lemma DeliverSpoolBalances(b: Box, rings: Rings, now: int, m: Msg)
    requires SealedSpool(b.spooled)
    ensures SpoolBalanced(b, rings, now, m)
  {
    if b.spooled == [] || b.runner.None? {
      QuietBalances(b, b, m);
      assert Loads([]) == [];
    } else if b.paused {
      SpoolToPauseBalances(b, rings, now, m);
    } else if b.draining {
      SpoolToDrainBalances(b, rings, now, m);
      assert Loads([]) == [];
    } else {
      SpoolToRunnerBalances(b, rings, now, m);
    }
  }

  /* ---------- the operations ---------- */

  /** What every operation keeps: the retained queue is within its cap, the spool is sealed. */
  ghost predicate WellKept(b: Box) {
    |b.retained| <= CAP_POR_AGENTE && SealedSpool(b.spooled)
  }

  lemma PauseHoldBalances(b: Box, msg: Msg, now: int, m: Msg)
    ensures var o := Outcome(b.(pauseHeld := HoldAtPause(b.pauseHeld, [Plain(msg, now)], false)), [msg],
                             Fated(Evicted, Loads(PushedOutOfPause(b.pauseHeld, [Plain(msg, now)], false))), []);
            Balanced(b, o, m)
  {
    HoldAtPauseBalances(b.pauseHeld, [Plain(msg, now)], false, m);
    ItemsOfOne(Plain(msg, now), m);
    GoneOfFated(Evicted, Loads(PushedOutOfPause(b.pauseHeld, [Plain(msg, now)], false)), m);
  }

  /** A push into the buffer: what was live and what came are kept, evicted, or a duplicate. */
  lemma PushedBalances(buffer: seq<Item>, item: Item, now: int, m: Msg)
    ensures var live := Fresh(buffer, now - INBOUND_TTL_MS);
            CountItems(live, m) + (if item.msg == m then 1 else 0) ==
            CountItems(Pushed(buffer, item, now, INBOUND_TTL_MS, BUFFER_MAX), m) +
            if HasId(item.msg.id) && CarriesId(live, item.msg.id) then (if item.msg == m then 1 else 0)
            else CountItems(CutOff(live + [StampArrival(item, now)], BUFFER_MAX), m)
  {
    var live, stamped := Fresh(buffer, now - INBOUND_TTL_MS), StampArrival(item, now);
    var all := live + [stamped];
    ItemsOfAppend(live, [stamped], m);
    ItemsOfOne(stamped, m);
    CutAndKept(all, BUFFER_MAX);
    ItemsOfAppend(CutOff(all, BUFFER_MAX), LastN(all, BUFFER_MAX), m);
  }

  lemma BufferLossesCount(buffer: seq<Item>, msg: Msg, item: Item, now: int, m: Msg)
    requires item.msg == msg
    ensures CountItems(buffer, m) + (if msg == m then 1 else 0) ==
            CountItems(Pushed(buffer, item, now, INBOUND_TTL_MS, BUFFER_MAX), m) +
              CountGone(BufferLosses(buffer, msg, item, now), m)
  {
    var cutoff := now - INBOUND_TTL_MS;
    var stale := Loads(Stale(buffer, cutoff));
    FreshBalances(buffer, cutoff, m);
    PushedBalances(buffer, item, now, m);
    GoneOfFated(Expired, stale, m);
    if HasId(msg.id) && CarriesId(Fresh(buffer, cutoff), msg.id) {
      GoneOfOne(Gone(Duplicate, msg), m);
      GoneOfAppend(Fated(Expired, stale), [Gone(Duplicate, msg)], m);
    } else {
      var out := Loads(CutOff(Fresh(buffer, cutoff) + [StampArrival(item, now)], BUFFER_MAX));
      GoneOfFated(Evicted, out, m);
      GoneOfAppend(Fated(Expired, stale), Fated(Evicted, out), m);
    }
  }

  lemma BufferBalances(b: Box, msg: Msg, item: Item, now: int, m: Msg)
    requires item.msg == msg
    ensures Balanced(b, BufferUp(b, msg, item, now), m)
  {
    BufferLossesCount(b.buffer, msg, item, now, m);
  }

  lemma ParadoBalances(b: Box, msg: Msg, now: int, digest: Digest, m: Msg)
    requires WellKept(b) && !b.paused && !b.draining && !msg.member && b.runner.Some? && b.spooled == [] && b.parado
    ensures Balanced(b, Send(b, msg, now, digest), m)
  {
    var item := Item(msg.(member := false), now, Inbound, false, false);
    assert msg.(member := false) == msg;
    RetainBalances(b, [item], now, digest, m);
    ItemsOfOne(item, m);
  }

  lemma DrainSendBalances(b: Box, msg: Msg, now: int, m: Msg)
    ensures var o := Outcome(b.(drainHeld := HoldForDrain(b.drainHeld, Plain(msg, now), false)), [msg],
                             if HasId(msg.id) && CarriesId(b.drainHeld, msg.id) then [Gone(Duplicate, msg)]
                               else [], []);
            Balanced(b, o, m)
  {
    GoneOfOne(Gone(Duplicate, msg), m);
    HoldForDrainBalances(b.drainHeld, Plain(msg, now), false, m);
  }

  lemma GateBalances(b: Box, msg: Msg, fate: Fate, m: Msg)
    ensures Balanced(b, Outcome(b, [msg], [Gone(fate, msg)], []), m)
  {
    GoneOfOne(Gone(fate, msg), m);
  }

  lemma DirectSendBalances(b: Box, msg: Msg, m: Msg)
    requires b.runner.Some?
    ensures var (r, ok) := PushTo(b.runner.value, msg);
            Balanced(b,
                     Outcome(b.(runner := Some(r)), [msg], if ok then [] else [Gone(Refused, msg)],
                             [Push(msg, ok, false)]),
              m)
  {
    GoneOfOne(Gone(Refused, msg), m);
  }

  lemma SendBalances(b: Box, msg: Msg, now: int, digest: Digest, m: Msg)
    requires WellKept(b)
    ensures Balanced(b, Send(b, msg, now, digest), m)
  {
    if b.paused {
      PauseHoldBalances(b, msg, now, m);
    } else if msg.member && (b.draining || b.runner.None? || b.spooled != [] || b.parado ||
        Gated(b.runner.value, msg)) {
      GateBalances(b, msg, GateRejected, m);
    } else if b.draining {
      DrainSendBalances(b, msg, now, m);
    } else if b.runner.None? || b.spooled != [] {
      assert msg.(member := false) == msg;
      BufferBalances(b, msg, Plain(msg.(member := false), now), now, m);
    } else if b.parado {
      ParadoBalances(b, msg, now, digest, m);
    } else {
      DirectSendBalances(b, msg, m);
    }
  }

  lemma QueueDeliverBalances(b: Box, msg: Msg, rings: Rings, now: int, m: Msg)
    requires WellKept(b)
    ensures Balanced(b, QueueDeliver(b, msg, rings, now).0, m)
  {
    if b.runner.None? {
      QuietBalances(b, b, m);
    } else if b.paused {
      GateBalances(b, msg, Duplicate, m);
      PauseHoldBalances(b, msg, now, m);
    } else if Gated(b.runner.value, msg) {
      QuietBalances(b, b, m);
    } else {
      DeliveryBalances(b, msg, rings, now, m);
    }
  }

  /** A push that is taken brings its message, and a refused one nothing. */
  function Delivered(b: Box, msg: Msg): Outcome
    requires b.runner.Some?
  {
    var (r, ok) := PushTo(b.runner.value, msg);
    Outcome(b.(runner := Some(r)), if ok then [msg] else [], [], [Push(msg, ok, false)])
  }

  lemma DeliveryBalances(b: Box, msg: Msg, rings: Rings, now: int, m: Msg)
    requires WellKept(b) && b.runner.Some?
    ensures var first := Delivered(b, msg);
            Balanced(b, Then(first, Told(first.box, Calls(b.runner.value, msg), rings, now)), m)
  {
    assert MsgsOf([]) == [];
    var first := Delivered(b, msg);
    assert Balanced(b, first, m);
    ToldBalances(first.box, Calls(b.runner.value, msg), rings, now, m);
    ThenBalances(b, first, Told(first.box, Calls(b.runner.value, msg), rings, now), m);
  }

  lemma QueueChangedBalances(b: Box, rings: Rings, now: int, m: Msg)
    requires WellKept(b)
    ensures Balanced(b, QueueChanged(b, rings, now), m)
  {
    var (spool, held) := DeliverSpool(b, rings, now);
    DeliverSpoolBalances(b, rings, now, m);
    GoneOfFated(PausedSpool, Loads(held), m);
    GoneOfAppend(spool.gone, Fated(PausedSpool, Loads(held)), m);
  }

  /** However often the hook is called from inside a push, it accounts for every message. */
  lemma {:induction false} ToldBalances(b: Box, times: nat, rings: Rings, now: int, m: Msg)
    requires WellKept(b)
    ensures Balanced(b, Told(b, times, rings, now), m)
    decreases times
  {
    if times == 0 {
      QuietBalances(b, b, m);
    } else {
      ToldBalances(b, times - 1, rings, now, m);
      ToldAgain(b, times - 1, rings, now, m);
    }
  }

  lemma ToldAgain(b: Box, times: nat, rings: Rings, now: int, m: Msg)
    requires WellKept(b) && Balanced(b, Told(b, times, rings, now), m)
    ensures Balanced(b, Told(b, times + 1, rings, now), m)
  {
    ToldKeeps(b, times, rings, now);
    var next := Changed(b, Told(b, times, rings, now), rings, now, m);
    assert Told(b, times + 1, rings, now) == Then(Told(b, times, rings, now), next);
  }

  lemma Changed(b: Box, before: Outcome, rings: Rings, now: int, m: Msg) returns (next: Outcome)
    requires Balanced(b, before, m) && WellKept(before.box)
    ensures next == QueueChanged(before.box, rings, now) && Balanced(b, Then(before, next), m)
  {
    next := QueueChanged(before.box, rings, now);
    QueueChangedBalances(before.box, rings, now, m);
    ThenBalances(b, before, next, m);
  }

  /** A push whose answer is ignored loses its message when it is refused. */
  function Tried(b: Box, msg: Msg): Outcome
    requires b.runner.Some?
  {
    var (r, ok) := PushTo(b.runner.value, msg);
    Outcome(b.(runner := Some(r)), [], if ok then [] else [Gone(Refused, msg)], [Push(msg, ok, false)])
  }

  /** Messages that nobody holds any more are pushed: each is taken, or gone. */
  ghost predicate PushBalanced(b: Box, msgs: seq<Msg>, o: Outcome, m: Msg) {
    Held(b, m) + Count(msgs, m) + Count(o.entered, m) == Held(o.box, m) + CountGone(o.gone, m)
  }

  lemma PushesThen(b: Box, init: seq<Msg>, first: Outcome, more: seq<Msg>, second: Outcome, m: Msg)
    requires PushBalanced(b, init, first, m) && PushBalanced(first.box, more, second, m)
    ensures PushBalanced(b, init + more, Then(first, second), m)
  {
    CountOfAppend(init, more, m);
    GoneOfAppend(first.gone, second.gone, m);
    CountOfAppend(first.entered, second.entered, m);
  }

  lemma TriedBalances(b: Box, msg: Msg, m: Msg)
    requires b.runner.Some?
    ensures PushBalanced(b, [msg], Tried(b, msg), m)
  {
    PushCounts(b.runner.value, msg, m);
    RunnerSwap(b, Some(PushTo(b.runner.value, msg).0), m);
    GoneOfOne(Gone(Refused, msg), m);
    assert MsgsOf([]) == [];
  }

  lemma PushCounts(r: Runner, msg: Msg, m: Msg)
    ensures var (q, ok) := PushTo(r, msg);
            WithRunner(Some(q), m) == WithRunner(Some(r), m) + if ok then Count([msg], m) else 0
  {
  }

  lemma RunnerSwap(b: Box, r: Option<Runner>, m: Msg)
    ensures Held(b.(runner := r), m) + WithRunner(b.runner, m) == Held(b, m) + WithRunner(r, m)
  {
  }

  lemma PushBufferedBalances(b: Box, msg: Msg, rings: Rings, now: int, m: Msg)
    requires WellKept(b) && b.runner.Some?
    ensures PushBalanced(b, [msg], PushBuffered(b, msg, rings, now), m)
  {
    var first, times := Tried(b, msg), Calls(b.runner.value, msg);
    TriedBalances(b, msg, m);
    ToldBalances(first.box, times, rings, now, m);
    PushesThen(b, [msg], first, [], Told(first.box, times, rings, now), m);
    assert [msg] + [] == [msg];
  }

  lemma {:induction false} PushBufferBalances(b: Box, msgs: seq<Msg>, rings: Rings, now: int, m: Msg)
    requires WellKept(b) && b.runner.Some?
    ensures PushBalanced(b, msgs, PushBuffer(b, msgs, rings, now), m)
    decreases |msgs|
  {
    if msgs == [] {
      assert MsgsOf([]) == [];
    } else {
      PushBufferBalances(b, msgs[..|msgs| - 1], rings, now, m);
      PushBufferKeeps(b, msgs[..|msgs| - 1], rings, now);
      var before, last := PushBuffer(b, msgs[..|msgs| - 1], rings, now), msgs[|msgs| - 1];
      PushBufferedBalances(before.box, last, rings, now, m);
      OneMorePushed(b, msgs, before, PushBuffered(before.box, last, rings, now), m);
    }
  }

  lemma OneMorePushed(b: Box, msgs: seq<Msg>, before: Outcome, next: Outcome, m: Msg)
    requires msgs != [] && PushBalanced(b, msgs[..|msgs| - 1], before, m)
    requires PushBalanced(before.box, [msgs[|msgs| - 1]], next, m)
    ensures PushBalanced(b, msgs, Then(before, next), m)
  {
    PushesThen(b, msgs[..|msgs| - 1], before, [msgs[|msgs| - 1]], next, m);
    assert msgs == msgs[..|msgs| - 1] + [msgs[|msgs| - 1]];
  }

  /** What the hook leaves alone: all but the runner's queue and pushes, the spool and the drain queue. */
  ghost predicate Steady(b: Box, c: Box) {
    && c == b.(runner := c.runner, spooled := c.spooled, drainHeld := c.drainHeld)
    && (c.runner.None? <==> b.runner.None?)
    && (b.spooled == [] ==> c.spooled == [] && c.drainHeld == b.drainHeld)
    && (b.paused || !b.draining ==> c.drainHeld == b.drainHeld)
  }

  lemma QueueChangedSteady(b: Box, rings: Rings, now: int)
    ensures Steady(b, QueueChanged(b, rings, now).box)
  {
  }

  lemma {:induction false} ToldSteady(b: Box, times: nat, rings: Rings, now: int)
    ensures Steady(b, Told(b, times, rings, now).box)
    decreases times
  {
    if times > 0 {
      ToldSteady(b, times - 1, rings, now);
      QueueChangedSteady(Told(b, times - 1, rings, now).box, rings, now);
    }
  }

  lemma PushBufferedSteady(b: Box, m: Msg, rings: Rings, now: int)
    requires b.runner.Some?
    ensures Steady(b, PushBuffered(b, m, rings, now).box)
  {
    ToldSteady(b.(runner := Some(PushTo(b.runner.value, m).0)), Calls(b.runner.value, m), rings, now);
  }

  lemma {:induction false} PushBufferSteady(b: Box, msgs: seq<Msg>, rings: Rings, now: int)
    ensures Steady(b, PushBuffer(b, msgs, rings, now).box)
    decreases |msgs|
  {
    if msgs != [] {
      var before := PushBuffer(b, msgs[..|msgs| - 1], rings, now);
      PushBufferSteady(b, msgs[..|msgs| - 1], rings, now);
      if before.box.runner.Some? {
        PushBufferedSteady(before.box, msgs[|msgs| - 1], rings, now);
      }
    }
  }

  lemma TakeToPauseBalances(b: Box, now: int, m: Msg)
    ensures Balanced(b, TakeToPause(b, now), m)
  {
    if QueueOf(b) != [] {
      var items := Stamp(QueueOf(b), now);
      LoadsOfStamp(QueueOf(b), now);
      HoldAtPauseBalances(b.pauseHeld, items, true, m);
      GoneOfFated(Evicted, Loads(PushedOutOfPause(b.pauseHeld, items, true)), m);
    }
  }

  lemma LiberarBalances(b: Box, m: Msg)
    ensures Balanced(b, Liberar(b), m)
  {
    if b.paused || b.pauseHeld == [] || b.runner.None? || b.parado || b.spooled != [] {
    } else if b.draining {
      HoldAllBalances(b.drainHeld, b.pauseHeld, m);
      GoneOfFated(Duplicate, Loads(DrainDuplicates(b.drainHeld, b.pauseHeld)), m);
    } else {
      PushAllBalances(b.runner.value, Loads(b.pauseHeld), m);
    }
  }

  lemma FlushBufferBalances(b: Box, fromSpool: seq<Item>, rings: Rings, now: int, m: Msg)
    requires WellKept(b) && (b.paused || fromSpool == [])
    ensures var o := FlushBuffer(b, fromSpool, rings, now);
            Held(b, m) + CountItems(fromSpool, m) + Count(o.entered, m) == Held(o.box, m) + CountGone(o.gone, m)
  {
    var cutoff := now - INBOUND_TTL_MS;
    var pending, stale := Fresh(b.buffer, cutoff), Loads(Stale(b.buffer, cutoff));
    var expired := Fated(Expired, stale);
    FreshBalances(b.buffer, cutoff, m);
    GoneOfFated(Expired, stale, m);
    if b.paused {
      ItemsOfAppend(fromSpool, pending, m);
      HoldAtPauseBalances(b.pauseHeld, fromSpool + pending, true, m);
      var out := Loads(PushedOutOfPause(b.pauseHeld, fromSpool + pending, true));
      GoneOfFated(Evicted, out, m);
      GoneOfAppend(expired, Fated(Evicted, out), m);
    } else if b.draining {
      HoldAllBalances(b.drainHeld, pending, m);
      GoneOfFated(Duplicate, Loads(DrainDuplicates(b.drainHeld, pending)), m);
      GoneOfAppend(expired, Fated(Duplicate, Loads(DrainDuplicates(b.drainHeld, pending))), m);
    } else {
      FlushToRunnerBalances(b, rings, now, m);
    }
  }

  lemma LiberarKeeps(b: Box)
    ensures Liberar(b).box.runner.None? <==> b.runner.None?
    ensures StoresStay(b, Liberar(b).box)
  {
  }

  lemma FlushToRunnerBalances(b: Box, rings: Rings, now: int, m: Msg)
    requires WellKept(b) && !b.paused && !b.draining
    ensures Balanced(b, FlushBuffer(b, [], rings, now), m)
  {
    var cutoff := now - INBOUND_TTL_MS;
    var pending, stale := Fresh(b.buffer, cutoff), Loads(Stale(b.buffer, cutoff));
    var expired, c := Fated(Expired, stale), b.(buffer := [], listed := false);
    FreshBalances(b.buffer, cutoff, m);
    GoneOfFated(Expired, stale, m);
    var freed := Liberar(c);
    LiberarBalances(c, m);
    LiberarKeeps(c);
    if b.runner.None? {
      GoneOfFated(RunnerGone, Loads(pending), m);
      GoneOfAppend(expired, Fated(RunnerGone, Loads(pending)), m);
      ThenBalances(b, Outcome(c, [], expired + Fated(RunnerGone, Loads(pending)), []), freed, m);
    } else {
      PushBufferBalances(freed.box, Loads(pending), rings, now, m);
      var first := Outcome(c, [], expired, []);
      BufferInHand(b, first, freed, Loads(pending), m);
      BufferBehind(b, Then(first, freed), PushBuffer(freed.box, Loads(pending), rings, now), Loads(pending), m);
    }
  }

  /** What is left once the expired have left and the pause queue was released: the buffer is in nobody's hands. */
  lemma BufferInHand(b: Box, first: Outcome, freed: Outcome, pending: seq<Msg>, m: Msg)
    requires Held(b, m) + Count(first.entered, m) == Held(first.box, m) + Count(pending, m) + CountGone(first.gone, m)
    requires Balanced(first.box, freed, m)
    ensures var o := Then(first, freed);
            Held(b, m) + Count(o.entered, m) == Held(o.box, m) + Count(pending, m) + CountGone(o.gone, m)
  {
    GoneOfAppend(first.gone, freed.gone, m);
    CountOfAppend(first.entered, freed.entered, m);
  }

  lemma BufferBehind(b: Box, front: Outcome, behind: Outcome, pending: seq<Msg>, m: Msg)
    requires Held(b, m) + Count(front.entered, m) == Held(front.box, m) + Count(pending, m) + CountGone(front.gone, m)
    requires PushBalanced(front.box, pending, behind, m)
    ensures Balanced(b, Then(front, behind), m)
  {
    GoneOfAppend(front.gone, behind.gone, m);
    CountOfAppend(front.entered, behind.entered, m);
  }

  lemma FlushBalances(b: Box, rings: Rings, now: int, m: Msg)
    requires WellKept(b)
    ensures Balanced(b, Flush(b, rings, now), m)
  {
    var (spool, held) := DeliverSpool(b, rings, now);
    DeliverSpoolBalances(b, rings, now, m);
    DeliverKeeps(b, rings, now);
    FlushBufferBalances(spool.box, held, rings, now, m);
    var rest := FlushBuffer(spool.box, held, rings, now);
    GoneOfAppend(spool.gone, rest.gone, m);
    CountOfAppend(spool.entered, rest.entered, m);
  }

  lemma StopBalances(b: Box, now: int, digest: Digest, m: Msg)
    requires WellKept(b)
    ensures Balanced(b, Stop(b, now, digest), m)
  {
    if b.runner.Some? {
      var c := b.(parado := true);
      KillBalances(c, m);
      RetainQueueBalances(KillTurn(c).box, FromStop, now, digest, m);
      ThenBalances(c, KillTurn(c), RetainQueue(KillTurn(c).box, FromStop, now, digest), m);
    }
  }

  lemma KillBalances(b: Box, m: Msg)
    ensures Balanced(b, KillTurn(b), m) && KillTurn(b).box.retained == b.retained && InFlightOf(KillTurn(b).box) == []
  {
    if InFlightOf(b) == [] {
      QuietBalances(b, b, m);
    } else {
      TurnLeaves(b, Killed, m);
    }
  }

  lemma SpawnBalances(b: Box, paused: bool, r: Runner, project: Option<string>, now: int, digest: Digest, m: Msg)
    requires WellKept(b)
    ensures Balanced(b, Spawn(b, paused, r, project, now, digest), m)
  {
    var c := b.(paused := paused);
    var killed := KillTurn(c);
    KillBalances(c, m);
    var retained := RetainQueue(killed.box, Replace, now, digest);
    RetainQueueBalances(killed.box, Replace, now, digest, m);
    ThenBalances(c, killed, retained, m);
    RetainEmptiesQueue(killed.box, Replace, now, digest);
    NewRunnerHoldsNothing(retained.box, project, r, m);
    ThenBalances(c, Then(killed, retained), Quiet(Replaced(retained.box, project, r)), m);
  }

  lemma RetainEmptiesQueue(b: Box, source: Source, now: int, digest: Digest)
    ensures QueueOf(RetainQueue(b, source, now, digest).box) == []
    ensures InFlightOf(RetainQueue(b, source, now, digest).box) == InFlightOf(b)
  {
  }

  lemma NewRunnerHoldsNothing(b: Box, project: Option<string>, r: Runner, m: Msg)
    requires QueueOf(b) == [] && InFlightOf(b) == []
    ensures Balanced(b, Quiet(Replaced(b, project, r)), m)
  {
    RunnerHas(b, m);
    RunnerHas(Replaced(b, project, r), m);
    QuietBalances(b, Replaced(b, project, r), m);
  }

  lemma RemoveBalances(b: Box, q: nat, i: nat, d: nat, p: nat, m: Msg)
    ensures Balanced(b, RemoveAt(b, q, i, d, p), m)
  {
    if q < |QueueOf(b)| {
      RemoveQueuedBalances(b, q, m);
    } else if i < |b.buffer| {
      RemoveBufferedBalances(b, i, m);
    } else if d < |b.drainHeld| {
      RemoveDrainBalances(b, d, m);
    } else if p < |b.pauseHeld| {
      RemovePausedBalances(b, p, m);
    } else {
      QuietBalances(b, b, m);
    }
  }

  lemma RemoveQueuedBalances(b: Box, q: nat, m: Msg)
    requires q < |QueueOf(b)|
    ensures Balanced(b, TakenOut(b.(runner := Some(b.runner.value.(queue := Without(QueueOf(b), q)))), QueueOf(b)[q]),
            m)
  {
    WithoutKeepsRest(QueueOf(b), q);
    GoneOfOne(Gone(Removed, QueueOf(b)[q]), m);
  }

  lemma RemoveBufferedBalances(b: Box, i: nat, m: Msg)
    requires i < |b.buffer|
    ensures Balanced(b, TakenOut(b.(buffer := Without(b.buffer, i)), b.buffer[i].msg), m)
  {
    RemoveItemBalances(b.buffer, i, m);
  }

  lemma RemoveDrainBalances(b: Box, i: nat, m: Msg)
    requires i < |b.drainHeld|
    ensures Balanced(b, TakenOut(b.(drainHeld := Without(b.drainHeld, i)), b.drainHeld[i].msg), m)
  {
    RemoveItemBalances(b.drainHeld, i, m);
  }

  lemma RemovePausedBalances(b: Box, i: nat, m: Msg)
    requires i < |b.pauseHeld|
    ensures Balanced(b, TakenOut(b.(pauseHeld := Without(b.pauseHeld, i)), b.pauseHeld[i].msg), m)
  {
    RemoveItemBalances(b.pauseHeld, i, m);
  }

  lemma RemoveItemBalances(items: seq<Item>, i: nat, m: Msg)
    requires i < |items|
    ensures CountItems(items, m) == CountItems(Without(items, i), m) + CountGone([Gone(Removed, items[i].msg)], m)
  {
    LoadsOfWithout(items, i);
    WithoutKeepsRest(Loads(items), i);
    GoneOfOne(Gone(Removed, items[i].msg), m);
  }

  lemma StartDrainBalances(b: Box, now: int, m: Msg)
    ensures Balanced(b, StartDrain(b, now), m)
  {
    if b.runner.Some? {
      var items := Stamp(QueueOf(b), now);
      LoadsOfStamp(QueueOf(b), now);
      HoldAllBalances(b.drainHeld, items, m);
      GoneOfFated(Duplicate, Loads(DrainDuplicates(b.drainHeld, items)), m);
    }
  }

  lemma HoldInFlightBalances(b: Box, now: int, m: Msg)
    ensures Balanced(b, HoldInFlight(b, now), m)
  {
    if InFlightOf(b) != [] {
      var msg := InFlightOf(b)[0];
      HoldForDrainBalances(b.drainHeld, Plain(msg, now), true, m);
      GoneOfOne(Gone(Duplicate, msg), m);
    }
  }

  /** When only the runner changes, only what it held counts. */
  lemma RunnerBalances(b: Box, r: Option<Runner>, gone: seq<Gone>, m: Msg)
    requires WithRunner(b.runner, m) == WithRunner(r, m) + CountGone(gone, m)
    ensures Balanced(b, Outcome(b.(runner := r), [], gone, []), m)
  {
  }

  lemma RunnerHas(b: Box, m: Msg)
    ensures WithRunner(b.runner, m) == Count(QueueOf(b), m) + Count(InFlightOf(b), m)
  {
  }

  lemma StartTurnBalances(b: Box, m: Msg)
    ensures Balanced(b, StartTurn(b), m)
  {
    if QueueOf(b) == [] || InFlightOf(b) != [] {
      QuietBalances(b, b, m);
    } else {
      var r := b.runner.value;
      assert r.queue == [r.queue[0]] + r.queue[1..];
      assert MsgsOf([]) == [];
      RunnerBalances(b, Some(r.(queue := r.queue[1..], inFlight := Some(r.queue[0]))), [], m);
    }
  }

  lemma FinishTurnBalances(b: Box, m: Msg)
    ensures Balanced(b, FinishTurn(b), m)
  {
    if InFlightOf(b) == [] {
      QuietBalances(b, b, m);
    } else {
      TurnLeaves(b, Finished, m);
    }
  }

  lemma TurnLeaves(b: Box, fate: Fate, m: Msg)
    requires InFlightOf(b) != []
    ensures Balanced(b, Outcome(b.(runner := Some(b.runner.value.(inFlight := None))), [], Fated(fate, InFlightOf(b)),
            []), m)
  {
    GoneOfFated(fate, InFlightOf(b), m);
    RunnerBalances(b, Some(b.runner.value.(inFlight := None)), Fated(fate, InFlightOf(b)), m);
  }

  lemma ExitBalances(b: Box, m: Msg)
    ensures Balanced(b, Exit(b), m)
  {
    if b.runner.None? {
      QuietBalances(b, b, m);
    } else {
      GoneOfFated(Killed, QueueOf(b) + InFlightOf(b), m);
      CountOfAppend(QueueOf(b), InFlightOf(b), m);
      RunnerHas(b, m);
      RunnerBalances(b, None, Fated(Killed, QueueOf(b) + InFlightOf(b)), m);
    }
  }

  lemma ChangeBalances(b: Box, accepts: nat -> bool, blocked: nat -> bool, tells: nat -> nat, m: Msg)
    ensures Balanced(b, ChangeRunner(b, accepts, blocked, tells), m)
  {
    QuietBalances(b, ChangeRunner(b, accepts, blocked, tells).box, m);
  }

  lemma RetainedExpiryBalances(b: Box, now: int, m: Msg)
    ensures Balanced(b, ExpireRetained(b, now), m)
  {
    FreshBalances(b.retained, now - TTL_ITEM_MS, m);
    GoneOfFated(Expired, Loads(Stale(b.retained, now - TTL_ITEM_MS)), m);
  }

  lemma BufferExpiryBalances(b: Box, now: int, m: Msg)
    ensures Balanced(b, ExpireBuffer(b, now), m)
  {
    FreshBalances(b.buffer, now - INBOUND_TTL_MS, m);
    GoneOfFated(Expired, Loads(Stale(b.buffer, now - INBOUND_TTL_MS)), m);
  }

  lemma ForgetBalances(b: Box, m: Msg)
    ensures Balanced(b, Forget(b), m)
  {
    GoneOfFated(Forgotten, Loads(b.retained), m);
  }

  lemma SpawnDoneBalances(b: Box, rings: Rings, now: int, m: Msg)
    requires WellKept(b)
    ensures Balanced(b, SpawnDone(b, rings, now), m)
  {
    FlushBalances(Started(b), rings, now, m);
  }

  lemma PauseBalances(b: Box, now: int, m: Msg)
    ensures Balanced(b, Pause(b, now), m)
  {
    if b.paused {
      QuietBalances(b, b, m);
    } else {
      TakeToPauseBalances(b.(paused := true), now, m);
    }
  }

  lemma ResumeBalances(b: Box, m: Msg)
    ensures Balanced(b, Resume(b), m)
  {
    if b.paused {
      LiberarBalances(b.(paused := false), m);
    } else {
      QuietBalances(b, b, m);
    }
  }

  lemma ReconnectBalances(b: Box, paused: bool, now: int, m: Msg)
    ensures Balanced(b, Reconnect(b, paused, now), m)
  {
    var c := b.(paused := paused);
    if b.runner.None? {
      QuietBalances(b, c, m);
    } else if paused {
      TakeToPauseBalances(c, now, m);
    } else {
      LiberarBalances(c, m);
    }
  }

  /** A change of flags alone moves nothing. */
  lemma QuietBalances(b: Box, c: Box, m: Msg)
    requires Held(b, m) == Held(c, m)
    ensures Balanced(b, Quiet(c), m)
  {
    assert MsgsOf([]) == [];
  }

  /* ---------- from each operation to the step ---------- */

  lemma SendStepBalances(b: Box, op: Op, env: Env, msg: Msg, now: int, m: Msg)
    requires WellKept(b) && op == DoSend(msg, now)
    ensures Balanced(b, Step(b, op, env), m)
  {
    SendBalances(b, msg, now, env.digest, m);
  }

  lemma DeliveryStepBalances(b: Box, op: Op, env: Env, msg: Msg, now: int, m: Msg)
    requires WellKept(b) && op == DoQueueDeliver(msg, now)
    ensures Balanced(b, Step(b, op, env), m)
  {
    QueueDeliverBalances(b, msg, env.rings, now, m);
  }

  lemma FlushStepBalances(b: Box, op: Op, env: Env, now: int, m: Msg)
    requires WellKept(b) && op == DoFlush(now)
    ensures Balanced(b, Step(b, op, env), m)
  {
    var o := FlushOutcome(b, env.rings, now, m);
    StepIsFlush(b, op, env, now, o);
  }

  lemma FlushOutcome(b: Box, rings: Rings, now: int, m: Msg) returns (o: Outcome)
    requires WellKept(b)
    ensures o == Flush(b, rings, now) && Balanced(b, o, m)
  {
    o := Flush(b, rings, now);
    FlushBalances(b, rings, now, m);
  }

  lemma StepIsFlush(b: Box, op: Op, env: Env, now: int, o: Outcome)
    requires op == DoFlush(now) && o == Flush(b, env.rings, now)
    ensures Step(b, op, env) == o
  {
  }

  lemma SpawnDoneStepBalances(b: Box, op: Op, env: Env, now: int, m: Msg)
    requires WellKept(b) && op == DoSpawnDone(now)
    ensures Balanced(b, Step(b, op, env), m)
  {
    var o := SpawnDoneOutcome(b, env.rings, now, m);
    StepIsSpawnDone(b, op, env, now, o);
  }

  lemma SpawnDoneOutcome(b: Box, rings: Rings, now: int, m: Msg) returns (o: Outcome)
    requires WellKept(b)
    ensures o == SpawnDone(b, rings, now) && Balanced(b, o, m)
  {
    o := SpawnDone(b, rings, now);
    SpawnDoneBalances(b, rings, now, m);
  }

  lemma StepIsSpawnDone(b: Box, op: Op, env: Env, now: int, o: Outcome)
    requires op == DoSpawnDone(now) && o == SpawnDone(b, env.rings, now)
    ensures Step(b, op, env) == o
  {
  }

  lemma QueueChangedStepBalances(b: Box, op: Op, env: Env, now: int, m: Msg)
    requires WellKept(b) && op == DoQueueChanged(now)
    ensures Balanced(b, Step(b, op, env), m)
  {
    QueueChangedBalances(b, env.rings, now, m);
  }

  lemma RemoveStepBalances(b: Box, op: Op, env: Env, id: string, m: Msg)
    requires WellKept(b) && op == DoRemove(id)
    ensures Balanced(b, Step(b, op, env), m)
  {
    RemoveBalances(b, FirstWithId(QueueOf(b), id), FirstWithId(Loads(b.buffer), id),
                   FirstWithId(Loads(b.drainHeld), id), FirstWithId(Loads(b.pauseHeld), id), m);
  }

  lemma ReconnectStepBalances(b: Box, op: Op, env: Env, paused: bool, now: int, m: Msg)
    requires WellKept(b) && op == DoReconnect(paused, now)
    ensures Balanced(b, Step(b, op, env), m)
  {
    ReconnectBalances(b, paused, now, m);
  }

  lemma StopStepBalances(b: Box, op: Op, env: Env, now: int, m: Msg)
    requires WellKept(b) && op == DoStop(now)
    ensures Balanced(b, Step(b, op, env), m)
  {
    StopBalances(b, now, env.digest, m);
  }

  lemma SpawnStepBalances(b: Box, op: Op, env: Env, m: Msg)
    requires WellKept(b) && op.DoSpawn?
    ensures Balanced(b, Step(b, op, env), m)
  {
    var o := SpawnOutcome(b, op.paused, op.runner, op.project, op.now, env.digest, m);
    StepIsSpawn(b, op, env, o);
  }

  lemma SpawnOutcome(b: Box, paused: bool, r: Runner, project: Option<string>, now: int, digest: Digest, m: Msg)
    returns (o: Outcome)
    requires WellKept(b)
    ensures o == Spawn(b, paused, r, project, now, digest) && Balanced(b, o, m)
  {
    o := Spawn(b, paused, r, project, now, digest);
    SpawnBalances(b, paused, r, project, now, digest, m);
  }

  lemma StepIsSpawn(b: Box, op: Op, env: Env, o: Outcome)
    requires op.DoSpawn? && o == Spawn(b, op.paused, op.runner, op.project, op.now, env.digest)
    ensures Step(b, op, env) == o
  {
  }

  lemma RunnerRetainStepBalances(b: Box, op: Op, env: Env, source: Source, now: int, m: Msg)
    requires WellKept(b) && op == RunnerRetains(source, now)
    ensures Balanced(b, Step(b, op, env), m)
  {
    RetainQueueBalances(b, source, now, env.digest, m);
  }

  lemma DrainStepBalances(b: Box, op: Op, env: Env, now: int, m: Msg)
    requires op == DoStartDrain(now) || op == DoHoldInFlight(now)
    ensures Balanced(b, Step(b, op, env), m)
  {
    if op == DoStartDrain(now) {
      StartDrainBalances(b, now, m);
    } else {
      HoldInFlightBalances(b, now, m);
    }
  }

  lemma PauseStepBalances(b: Box, op: Op, env: Env, now: int, m: Msg)
    requires op == DoPause(now) || op == DoResume
    ensures Balanced(b, Step(b, op, env), m)
  {
    if op == DoResume {
      ResumeBalances(b, m);
    } else {
      PauseBalances(b, now, m);
    }
  }

  lemma TurnStepBalances(b: Box, op: Op, env: Env, m: Msg)
    requires op.RunnerStarts? || op.RunnerFinishes?
    ensures Balanced(b, Step(b, op, env), m)
  {
    StartTurnBalances(b, m);
    FinishTurnBalances(b, m);
  }

  lemma ExitStepBalances(b: Box, op: Op, env: Env, m: Msg)
    requires op.RunnerExits?
    ensures Balanced(b, Step(b, op, env), m)
  {
    ExitBalances(b, m);
  }

  lemma ChangeStepBalances(b: Box, op: Op, env: Env, m: Msg)
    requires op.RunnerChanges?
    ensures Balanced(b, Step(b, op, env), m)
  {
    ChangeBalances(b, op.accepts, op.blocked, op.tells, m);
  }

  lemma ExpiryStepBalances(b: Box, op: Op, env: Env, now: int, m: Msg)
    requires op == RetainedExpires(now) || op == BufferExpires(now) || op == DoForget
    ensures Balanced(b, Step(b, op, env), m)
  {
    RetainedExpiryBalances(b, now, m);
    BufferExpiryBalances(b, now, m);
    ForgetBalances(b, m);
  }

  /* ---------- what stays well kept ---------- */

  lemma PushSpoolLeavesSuffix(r: Runner, rs: seq<Record>, rings: Rings)
    ensures var s := PushSpool(r, rs, rings); |s.rest| <= |rs| && s.rest == rs[|rs| - |s.rest|..]
  {
    var k := SpoolSuffix(r, rs, rings);
  }

  lemma {:induction false} SpoolSuffix(r: Runner, rs: seq<Record>, rings: Rings) returns (k: nat)
    ensures k <= |rs| && PushSpool(r, rs, rings).rest == rs[k..]
    decreases |rs|
  {
    k := 0;
    if rs != [] {
      match ReadRecord(rs[0], rings)
      case None =>
        var n := SpoolSuffix(r, rs[1..], rings);
        k := n + 1;
      case Some(m) =>
        var (r', ok) := PushTo(r, m);
        if ok {
          var n := SpoolSuffix(r', rs[1..], rings);
          k := n + 1;
        }
    }
  }

  lemma RetainKeeps(b: Box, novos: seq<Item>, now: int, digest: Digest)
    requires WellKept(b)
    ensures WellKept(Retain(b, novos, now, digest).box)
  {
    FreshAndStale(b.retained, now - TTL_ITEM_MS);
    RetainedAccounts(Vivos(b.retained, now), novos, digest);
  }

  lemma FlushKeeps(b: Box, rings: Rings, now: int)
    requires WellKept(b)
    ensures WellKept(Flush(b, rings, now).box)
  {
    var (spool, held) := DeliverSpool(b, rings, now);
    DeliverKeeps(b, rings, now);
    FlushBufferKeeps(spool.box, held, rings, now);
  }

  lemma FlushBufferKeeps(b: Box, fromSpool: seq<Item>, rings: Rings, now: int)
    requires WellKept(b)
    ensures WellKept(FlushBuffer(b, fromSpool, rings, now).box)
  {
    var freed := Liberar(b.(buffer := [], listed := false));
    LiberarKeeps(b.(buffer := [], listed := false));
    if freed.box.runner.Some? {
      PushBufferKeeps(freed.box, Loads(Fresh(b.buffer, now - INBOUND_TTL_MS)), rings, now);
    }
  }

  lemma {:induction false} ToldKeeps(b: Box, times: nat, rings: Rings, now: int)
    requires WellKept(b)
    ensures WellKept(Told(b, times, rings, now).box)
    decreases times
  {
    if times > 0 {
      ToldKeeps(b, times - 1, rings, now);
      DeliverKeeps(Told(b, times - 1, rings, now).box, rings, now);
    }
  }

  lemma {:induction false} PushBufferKeeps(b: Box, msgs: seq<Msg>, rings: Rings, now: int)
    requires WellKept(b) && b.runner.Some?
    ensures WellKept(PushBuffer(b, msgs, rings, now).box) && PushBuffer(b, msgs, rings, now).box.runner.Some?
    decreases |msgs|
  {
    if msgs != [] {
      var before, last := PushBuffer(b, msgs[..|msgs| - 1], rings, now), msgs[|msgs| - 1];
      PushBufferKeeps(b, msgs[..|msgs| - 1], rings, now);
      PushBufferedSteady(before.box, last, rings, now);
      ToldKeeps(Tried(before.box, last).box, Calls(before.box.runner.value, last), rings, now);
    }
  }

  lemma DeliverKeeps(b: Box, rings: Rings, now: int)
    requires WellKept(b)
    ensures WellKept(DeliverSpool(b, rings, now).0.box)
  {
    if b.runner.Some? {
      PushSpoolLeavesSuffix(b.runner.value, b.spooled, rings);
    }
  }

  lemma RetainQueueKeeps(b: Box, source: Source, now: int, digest: Digest)
    requires WellKept(b)
    ensures WellKept(RetainQueue(b, source, now, digest).box)
  {
    if QueueOf(b) != [] {
      RetainKeeps(b.(runner := Some(b.runner.value.(queue := []))), WithSource(QueueOf(b), now, source), now, digest);
    }
  }

  lemma KillKeeps(b: Box)
    requires WellKept(b)
    ensures WellKept(KillTurn(b).box)
  {
  }

  lemma StopKeeps(b: Box, now: int, digest: Digest)
    requires WellKept(b)
    ensures WellKept(Stop(b, now, digest).box)
  {
    if b.runner.Some? {
      KillKeeps(b.(parado := true));
      RetainQueueKeeps(KillTurn(b.(parado := true)).box, FromStop, now, digest);
    }
  }

  lemma SpawnKeeps(b: Box, paused: bool, r: Runner, project: Option<string>, now: int, digest: Digest)
    requires WellKept(b)
    ensures WellKept(Spawn(b, paused, r, project, now, digest).box)
  {
    KillKeeps(b.(paused := paused));
    RetainQueueKeeps(KillTurn(b.(paused := paused)).box, Replace, now, digest);
  }

  lemma SendKeeps(b: Box, m: Msg, now: int, digest: Digest)
    requires WellKept(b)
    ensures WellKept(Send(b, m, now, digest).box)
  {
    RetainKeeps(b, [Item(m.(member := false), now, Inbound, false, false)], now, digest);
  }

  /** Neither the spool nor the retained queue moves. */
  ghost predicate StoresStay(b: Box, c: Box) {
    c.spooled == b.spooled && c.retained == b.retained
  }

  lemma QueueDeliverKeeps(b: Box, m: Msg, rings: Rings, now: int)
    requires WellKept(b)
    ensures WellKept(QueueDeliver(b, m, rings, now).0.box)
  {
    if b.runner.Some? {
      ToldKeeps(Delivered(b, m).box, Calls(b.runner.value, m), rings, now);
    }
  }

  lemma PauseKeeps(b: Box, now: int)
    ensures StoresStay(b, Pause(b, now).box)
  {
  }

  lemma ResumeKeeps(b: Box)
    ensures StoresStay(b, Resume(b).box)
  {
  }

  lemma ReconnectKeeps(b: Box, paused: bool, now: int)
    ensures StoresStay(b, Reconnect(b, paused, now).box)
  {
  }

  lemma RemoveKeeps(b: Box, q: nat, i: nat, d: nat, p: nat)
    ensures StoresStay(b, RemoveAt(b, q, i, d, p).box)
  {
  }

  lemma DrainKeeps(b: Box, now: int)
    ensures StoresStay(b, StartDrain(b, now).box) && StoresStay(b, HoldInFlight(b, now).box)
  {
  }

  lemma RunnerKeeps(b: Box)
    ensures StoresStay(b, StartTurn(b).box) && StoresStay(b, FinishTurn(b).box) && StoresStay(b, Exit(b).box)
  {
  }

  lemma ExpiryKeeps(b: Box, now: int)
    requires WellKept(b)
    ensures WellKept(ExpireRetained(b, now).box) && WellKept(ExpireBuffer(b, now).box) && WellKept(Forget(b).box)
  {
    FreshAndStale(b.retained, now - TTL_ITEM_MS);
  }

  lemma HostOpKeeps(b: Box, op: Op, env: Env)
    requires WellKept(b)
    requires op.DoPause? || op.DoResume? || op.DoReconnect? || op.DoRemove? || op.DoStartDrain? || op.DoHoldInFlight?
    ensures StoresStay(b, Step(b, op, env).box)
  {
    if op.DoPause? {
      PauseKeeps(b, op.now);
    } else if op.DoResume? {
      ResumeKeeps(b);
    } else if op.DoReconnect? {
      ReconnectKeeps(b, op.paused, op.now);
    } else if op.DoRemove? {
      RemoveKeeps(b, FirstWithId(QueueOf(b), op.id), FirstWithId(Loads(b.buffer), op.id),
                  FirstWithId(Loads(b.drainHeld), op.id), FirstWithId(Loads(b.pauseHeld), op.id));
    } else {
      DrainKeeps(b, op.now);
    }
  }

  lemma MoveKeeps(b: Box, op: Op, env: Env)
    requires op.RunnerStarts? || op.RunnerFinishes? || op.RunnerExits? || op.RunnerChanges?
    ensures StoresStay(b, Step(b, op, env).box)
  {
    if !op.RunnerChanges? {
      RunnerKeeps(b);
    }
  }

  lemma ExpiryOpKeeps(b: Box, op: Op, env: Env)
    requires WellKept(b) && (op.DoForget? || op.RetainedExpires? || op.BufferExpires?)
    ensures WellKept(Step(b, op, env).box)
  {
    ExpiryKeeps(b, if op.DoForget? then 0 else op.now);
  }

  lemma OtherOpKeeps(b: Box, op: Op, env: Env)
    requires WellKept(b)
    requires op.DoPause? || op.DoResume? || op.DoReconnect? || op.DoRemove? || op.DoStartDrain? || op.DoHoldInFlight? ||
             op.DoForget? || op.RunnerStarts? || op.RunnerFinishes? || op.RunnerExits? || op.RunnerChanges? ||
               op.RetainedExpires? || op.BufferExpires?
    ensures WellKept(Step(b, op, env).box)
  {
    if op.DoForget? || op.RetainedExpires? || op.BufferExpires? {
      ExpiryOpKeeps(b, op, env);
    } else if op.RunnerStarts? || op.RunnerFinishes? || op.RunnerExits? || op.RunnerChanges? {
      MoveKeeps(b, op, env);
    } else {
      HostOpKeeps(b, op, env);
    }
  }

  lemma StepKeeps(b: Box, op: Op, env: Env)
    requires WellKept(b)
    ensures WellKept(Step(b, op, env).box)
  {
    match op
    case DoSend(m, now) => SendKeeps(b, m, now, env.digest);
    case DoQueueDeliver(m, now) => QueueDeliverKeeps(b, m, env.rings, now);
    case DoFlush(now) => FlushKeeps(b, env.rings, now);
    case DoStop(now) => StopKeeps(b, now, env.digest);
    case DoSpawn(paused, runner, project, now) => SpawnKeeps(b, paused, runner, project, now, env.digest);
    case DoSpawnDone(now) => FlushKeeps(Started(b), env.rings, now);
    case DoQueueChanged(now) => DeliverKeeps(b, env.rings, now);
    case RunnerRetains(source, now) => RetainQueueKeeps(b, source, now, env.digest);
    case _ => OtherOpKeeps(b, op, env);
  }

  /** Every operation, and every move of the runner or of time, accounts for every message. */
  lemma StepBalances(b: Box, op: Op, env: Env, m: Msg)
    requires WellKept(b)
    ensures Balanced(b, Step(b, op, env), m)
  {
    match op
    case DoSend(msg, now) => SendStepBalances(b, op, env, msg, now, m);
    case DoQueueDeliver(msg, now) => DeliveryStepBalances(b, op, env, msg, now, m);
    case DoFlush(now) => FlushStepBalances(b, op, env, now, m);
    case DoSpawnDone(now) => SpawnDoneStepBalances(b, op, env, now, m);
    case DoQueueChanged(now) => QueueChangedStepBalances(b, op, env, now, m);
    case DoRemove(id) => RemoveStepBalances(b, op, env, id, m);
    case DoPause(now) => PauseStepBalances(b, op, env, now, m);
    case DoResume => PauseStepBalances(b, op, env, 0, m);
    case DoReconnect(paused, now) => ReconnectStepBalances(b, op, env, paused, now, m);
    case DoStop(now) => StopStepBalances(b, op, env, now, m);
    case DoSpawn(_, _, _, _) => SpawnStepBalances(b, op, env, m);
    case DoStartDrain(now) => DrainStepBalances(b, op, env, now, m);
    case DoHoldInFlight(now) => DrainStepBalances(b, op, env, now, m);
    case RunnerRetains(source, now) => RunnerRetainStepBalances(b, op, env, source, now, m);
    case RetainedExpires(now) => ExpiryStepBalances(b, op, env, now, m);
    case BufferExpires(now) => ExpiryStepBalances(b, op, env, now, m);
    case DoForget => ExpiryStepBalances(b, op, env, 0, m);
    case RunnerStarts => TurnStepBalances(b, op, env, m);
    case RunnerFinishes => TurnStepBalances(b, op, env, m);
    case RunnerExits => ExitStepBalances(b, op, env, m);
    case RunnerChanges(_, _, _) => ChangeStepBalances(b, op, env, m);
  }

  /**
   * The custody ledger: in every run, from any state, what was held plus what entered is what is
   * held plus what left by a declared way.
   */
  lemma {:induction false} EveryRunBalances(b: Box, ops: seq<Op>, env: Env, m: Msg)
    requires WellKept(b)
    ensures Balanced(b, RunOps(b, ops, env), m) && WellKept(RunOps(b, ops, env).box)
  {
    if ops != [] {
      var n := |ops| - 1;
      var before := RunOps(b, ops[..n], env);
      EveryRunBalances(b, ops[..n], env, m);
      StepBalances(before.box, ops[n], env, m);
      StepKeeps(before.box, ops[n], env);
      ThenBalances(b, before, Step(before.box, ops[n], env), m);
    } else {
      assert MsgsOf([]) == [];
    }
  }
}
