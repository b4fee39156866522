/**
 * Losses, exactly. For every operation: the state before it on which nothing is lost, counting copies
 * of messages and not labels.
 */
module CustodyLosses {
  import opened Common
  import opened KeyedFifo
  import opened Messages
  import opened InboundDedup
  import opened QueueRetained
  import opened Custody
  import opened CustodyLaws
  import opened CustodyOrder
  import opened CustodyPushes
  import opened CustodyPlaces

  /* ---------- what an operation owes ---------- */

  /** What an operation takes charge of: the message of a send, and of an acknowledged delivery. */
  function Arrivals(b: Box, op: Op, env: Env): seq<Msg> {
    match op
    case DoSend(m, now) => [m]
    case DoQueueDeliver(m, now) => if QueueDeliver(b, m, env.rings, now).1 then [m] else []
    case _ => []
  }

  predicate TurnedAway(b: Box, m: Msg) {
    m.member && (b.draining || b.runner.None? || b.spooled != [] || b.parado || Gated(b.runner.value, m))
  }

  /** What has outlived a TTL by the time of the operation, where the operation looks. */
  function Expires(b: Box, op: Op): seq<Msg> {
    match op
    case DoSend(m, now) =>
      if b.paused || TurnedAway(b, m) || b.draining then []
      else if b.runner.None? || b.spooled != [] then Loads(Stale(b.buffer, now - INBOUND_TTL_MS))
      else if b.parado then Loads(Stale(b.retained, now - TTL_ITEM_MS))
      else []
    case DoFlush(now) => Loads(Stale(b.buffer, now - INBOUND_TTL_MS))
    case DoSpawnDone(now) => Loads(Stale(b.buffer, now - INBOUND_TTL_MS))
    case BufferExpires(now) => Loads(Stale(b.buffer, now - INBOUND_TTL_MS))
    case DoStop(now) => RetainExpires(b, now)
    case DoSpawn(_, _, _, now) => RetainExpires(b, now)
    case RunnerRetains(_, now) => RetainExpires(b, now)
    case RetainedExpires(now) => Loads(Stale(b.retained, now - TTL_ITEM_MS))
    case _ => []
  }

  /** What an operation is meant to let go: what has expired, a turn that ends, what is taken out or forgotten. */
  function LetGo(b: Box, op: Op): seq<Msg> {
    match op
    case RunnerFinishes => InFlightOf(b)
    case DoRemove(id) => Wanted(b, id)
    case DoForget => Loads(b.retained)
    case _ => Expires(b, op)
  }

  function RetainExpires(b: Box, now: int): seq<Msg> {
    if QueueOf(b) == [] then [] else Loads(Stale(b.retained, now - TTL_ITEM_MS))
  }

  /** No message has fewer copies afterwards than it had, with what arrived, less what was let go. */
  ghost predicate Lossless(b: Box, c: Box, arrived: seq<Msg>, letGo: seq<Msg>) {
    forall m: Msg :: Held(b, m) + Count(arrived, m) <= Held(c, m) + Count(letGo, m)
  }

  ghost predicate NothingLost(b: Box, op: Op, env: Env) {
    Lossless(b, Step(b, op, env).box, Arrivals(b, op, env), LetGo(b, op))
  }

  /** What leaves is what was let go, and then `lost`. */
  ghost predicate Loses(o: Outcome, expired: seq<Msg>, lost: seq<Gone>) {
    forall m: Msg :: CountGone(o.gone, m) == Count(expired, m) + CountGone(lost, m)
  }

  lemma SomethingCounts(lost: seq<Gone>)
    ensures lost == [] <==> forall m: Msg :: CountGone(lost, m) == 0
  {
    if lost == [] {
      assert MsgsOf(lost) == [];
    } else {
      assert MsgsOf(lost)[0] == lost[0].msg;
      assert lost[0].msg in multiset(MsgsOf(lost));
      assert CountGone(lost, lost[0].msg) > 0;
    }
  }

  /** Where the ledger balances, nothing is lost exactly when nothing leaves but what was let go. */
  lemma LossIsWhatLeaves(b: Box, o: Outcome, expired: seq<Msg>, lost: seq<Gone>)
    requires (forall m: Msg :: Balanced(b, o, m)) && Loses(o, expired, lost)
    ensures Lossless(b, o.box, o.entered, expired) <==> lost == []
  {
    SomethingCounts(lost);
    forall m: Msg
      ensures Held(b, m) + Count(o.entered, m) <= Held(o.box, m) + Count(expired, m) <==> CountGone(lost, m) == 0
    {
      assert Balanced(b, o, m);
      assert CountGone(o.gone, m) == Count(expired, m) + CountGone(lost, m);
    }
    if lost == [] {
      assert Lossless(b, o.box, o.entered, expired);
    } else {
      var m: Msg :| CountGone(lost, m) != 0;
      assert !(Held(b, m) + Count(o.entered, m) <= Held(o.box, m) + Count(expired, m));
    }
  }

  lemma AllLeaves(o: Outcome)
    ensures Loses(o, [], o.gone)
  {
  }

  lemma ExpiredFirst(o: Outcome, expired: seq<Msg>, lost: seq<Gone>)
    requires o.gone == Fated(Expired, expired) + lost
    ensures Loses(o, expired, lost)
  {
    LetGoFirst(o, Expired, expired, lost);
  }

  lemma LetGoFirst(o: Outcome, fate: Fate, left: seq<Msg>, lost: seq<Gone>)
    requires o.gone == Fated(fate, left) + lost
    ensures Loses(o, left, lost)
  {
    forall m: Msg ensures CountGone(o.gone, m) == Count(left, m) + CountGone(lost, m) {
      GoneOfAppend(Fated(fate, left), lost, m);
      GoneOfFated(fate, left, m);
    }
  }

  /** All that leaves was let go. */
  lemma OnlyLetGo(o: Outcome, fate: Fate, left: seq<Msg>)
    requires o.gone == Fated(fate, left)
    ensures Accounts(o, left, true)
  {
    assert o.gone == Fated(fate, left) + [];
    LetGoFirst(o, fate, left, []);
  }

  lemma ExpiredBetween(o: Outcome, before: seq<Gone>, expired: seq<Msg>, after: seq<Gone>)
    requires o.gone == before + (Fated(Expired, expired) + after)
    ensures Loses(o, expired, before + after)
  {
    forall m: Msg ensures CountGone(o.gone, m) == Count(expired, m) + CountGone(before + after, m) {
      GoneOfAppend(before, Fated(Expired, expired) + after, m);
      GoneOfAppend(Fated(Expired, expired), after, m);
      GoneOfFated(Expired, expired, m);
      GoneOfAppend(before, after, m);
    }
  }

  /* ---------- holding without loss ---------- */

  /** There is room for these in the pause queue. */
  predicate Fits(held: seq<Item>, more: nat) {
    more == 0 || |held| + more <= CAP_POR_AGENTE
  }

  lemma FitsExactly(held: seq<Item>, items: seq<Item>, front: bool)
    ensures PushedOutOfPause(held, items, front) == [] <==> Fits(held, |items|)
  {
  }

  /** No real id among the items is held already, or comes twice. */
  ghost predicate NoSecondCopy(held: seq<Item>, items: seq<Item>) {
    forall i :: 0 <= i < |items| && HasId(items[i].msg.id) ==>
      !CarriesId(held, items[i].msg.id) && !CarriesId(items[..i], items[i].msg.id)
  }

  lemma {:induction false} HeldForDrainCarries(held: seq<Item>, items: seq<Item>, id: Option<string>)
    requires HasId(id)
    ensures CarriesId(HoldAllForDrain(held, items), id) <==> CarriesId(held, id) || CarriesId(items, id)
  {
    if items != [] {
      var init, last := items[..|items| - 1], items[|items| - 1];
      HeldForDrainCarries(held, init, id);
      assert items == init + [last];
      CarriesOfAppend(init, [last], id);
      CarriesOfAppend(HoldAllForDrain(held, init), [last], id);
      CarriesOfOne(last, id);
    }
  }

  lemma {:induction false} NoSecondCopyIsExact(held: seq<Item>, items: seq<Item>)
    ensures DrainDuplicates(held, items) == [] <==> NoSecondCopy(held, items)
  {
    if items != [] {
      var n := |items| - 1;
      NoSecondCopyIsExact(held, items[..n]);
      NoSecondCopyOfLast(held, items);
      if HasId(items[n].msg.id) {
        HeldForDrainCarries(held, items[..n], items[n].msg.id);
      }
    }
  }

  lemma NoSecondCopyOfLast(held: seq<Item>, items: seq<Item>)
    requires items != []
    ensures var n := |items| - 1;
            NoSecondCopy(held, items) <==>
            NoSecondCopy(held, items[..n]) && (HasId(items[n].msg.id) ==>
              !CarriesId(held, items[n].msg.id) && !CarriesId(items[..n], items[n].msg.id))
  {
    var n := |items| - 1;
    assert forall i :: 0 <= i < n ==> items[..n][i] == items[i] && items[..n][..i] == items[..i];
  }

  /** All keys are new, and there is room. */
  ghost predicate NewKeys(itens: seq<Item>, novos: seq<Item>, digest: Digest) {
    |itens| + |novos| <= CAP_POR_AGENTE &&
    forall i :: 0 <= i < |novos| ==> KeyIsNew(itens + novos[..i], novos[i], digest)
  }

  ghost predicate KeyIsNew(itens: seq<Item>, novo: Item, digest: Digest) {
    forall j :: 0 <= j < |itens| ==> ChaveItem(itens[j], digest) != ChaveItem(novo, digest)
  }

  lemma KeyIsNewIsNotHeld(itens: seq<Item>, novo: Item, digest: Digest)
    ensures KeyIsNew(itens, novo, digest) <==> !HoldsKey(itens, Chave(digest)(novo), Chave(digest))
  {
    var keys := Keys(itens, Chave(digest));
    assert forall j :: 0 <= j < |itens| ==> keys[j] == ChaveItem(itens[j], digest);
  }

  lemma NewKeysOfLast(itens: seq<Item>, novos: seq<Item>, digest: Digest)
    requires novos != [] && |itens| + |novos| <= CAP_POR_AGENTE
    ensures var n := |novos| - 1;
            NewKeys(itens, novos, digest) <==>
              NewKeys(itens, novos[..n], digest) && KeyIsNew(itens + novos[..n], novos[n], digest)
  {
    var n := |novos| - 1;
    assert forall i :: 0 <= i < n ==> novos[..n][i] == novos[i] && novos[..n][..i] == novos[..i];
  }

  lemma {:induction false} AllEnter(itens: seq<Item>, novos: seq<Item>, digest: Digest)
    requires |itens| + |novos| <= CAP_POR_AGENTE
    ensures Recusados(itens, novos, digest) == [] <==> NewKeys(itens, novos, digest)
    ensures Recusados(itens, novos, digest) == [] ==>
            Retained(itens, novos, digest) == itens + novos && Aceitos(itens, novos, digest) == novos
  {
    if novos == [] {
      assert itens + novos == itens;
    } else {
      var n := |novos| - 1;
      AllEnter(itens, novos[..n], digest);
      NewKeysOfLast(itens, novos, digest);
      KeyIsNewIsNotHeld(itens + novos[..n], novos[n], digest);
      assert itens + novos[..n] + [novos[n]] == itens + novos;
      assert novos[..n] + [novos[n]] == novos;
    }
  }

  /** The retained queue turns nothing away and pushes nothing out exactly when the keys are new and there is room. */
  lemma NewKeysIsExact(itens: seq<Item>, novos: seq<Item>, digest: Digest)
    requires |itens| <= CAP_POR_AGENTE
    ensures Recusados(itens, novos, digest) == [] && Descartados(itens, novos, digest) == [] <==>
            NewKeys(itens, novos, digest)
  {
    if |itens| + |novos| <= CAP_POR_AGENTE {
      AllEnter(itens, novos, digest);
    } else {
      SplitByAcceptance(itens, novos, digest);
    }
  }

  /* ---------- the spool without loss ---------- */

  /** The records that a delivery looks at. */
  function Reach(b: Box): seq<Record> {
    if b.runner.None? then [] else b.spooled
  }

  ghost predicate AllOpen(rs: seq<Record>, rings: Rings) {
    forall i :: 0 <= i < |rs| ==> ReadRecord(rs[i], rings).Some?
  }

  /** Every record opens and carries no id. */
  ghost predicate AllOpenNameless(rs: seq<Record>, rings: Rings) {
    forall i :: 0 <= i < |rs| ==> ReadRecord(rs[i], rings).Some? && rs[i].id.None?
  }

  ghost predicate Nameless(msgs: seq<Msg>) {
    forall i :: 0 <= i < |msgs| ==> msgs[i].id.None?
  }

  lemma {:induction false} OpenIsExact(rs: seq<Record>, rings: Rings)
    ensures UnreadableMsgs(rs, rings) == [] <==> AllOpen(rs, rings)
  {
    if rs != [] {
      OpenIsExact(rs[1..], rings);
      assert AllOpen(rs, rings) <==> ReadRecord(rs[0], rings).Some? && AllOpen(rs[1..], rings) by {
        assert forall i :: 0 < i < |rs| ==> rs[i] == rs[1..][i - 1];
      }
    }
  }

  lemma {:induction false} NamelessIsExact(rs: seq<Record>, rings: Rings)
    requires AllOpen(rs, rings)
    ensures |Readable(rs, rings)| == |rs|
    ensures forall i :: 0 <= i < |rs| ==> Readable(rs, rings)[i].id == rs[i].id
  {
    if rs != [] {
      assert forall i :: 0 <= i < |rs[1..]| ==> rs[1..][i] == rs[i + 1];
      NamelessIsExact(rs[1..], rings);
    }
  }

  lemma OpenNamelessIsExact(rs: seq<Record>, rings: Rings)
    ensures UnreadableMsgs(rs, rings) == [] && Nameless(Readable(rs, rings)) <==> AllOpenNameless(rs, rings)
  {
    OpenIsExact(rs, rings);
    if AllOpen(rs, rings) {
      NamelessIsExact(rs, rings);
    }
  }

  /** Taking the ids off costs nothing exactly where there are none. */
  lemma NamesAreLost(msgs: seq<Msg>, lost: seq<Gone>)
    ensures (forall m: Msg :: Count(msgs, m) + CountGone(lost, m) <= Count(WithoutIds(msgs), m)) <==>
            lost == [] && Nameless(msgs)
  {
    if lost == [] && Nameless(msgs) {
      assert WithoutIds(msgs) == msgs;
      SomethingCounts(lost);
    }
    if forall m: Msg :: Count(msgs, m) + CountGone(lost, m) <= Count(WithoutIds(msgs), m) {
      NoNameSurvives(msgs, lost);
      assert WithoutIds(msgs) == msgs;
      forall m: Msg ensures CountGone(lost, m) == 0 {
        assert Count(msgs, m) + CountGone(lost, m) <= Count(WithoutIds(msgs), m);
      }
      SomethingCounts(lost);
    }
  }

  lemma NoNameSurvives(msgs: seq<Msg>, lost: seq<Gone>)
    requires forall m: Msg :: Count(msgs, m) + CountGone(lost, m) <= Count(WithoutIds(msgs), m)
    ensures Nameless(msgs)
  {
    forall i | 0 <= i < |msgs| ensures msgs[i].id.None? {
      assert msgs[i] in multiset(msgs);
      assert Count(msgs, msgs[i]) > 0;
      assert Count(msgs, msgs[i]) + CountGone(lost, msgs[i]) <= Count(WithoutIds(msgs), msgs[i]);
      assert msgs[i] in multiset(WithoutIds(msgs));
      var j :| 0 <= j < |msgs| && WithoutIds(msgs)[j] == msgs[i];
    }
  }

  /** What a drain does with what it reads: re-held without ids, and beside that `lost`. */
  ghost predicate Renames(b: Box, o: Outcome, readable: seq<Msg>, expired: seq<Msg>, lost: seq<Gone>) {
    forall m: Msg :: Held(b, m) + Count(WithoutIds(readable), m) ==
                     Held(o.box, m) + Count(readable, m) + Count(expired, m) + CountGone(lost, m)
  }

  lemma RenamingLoses(b: Box, o: Outcome, readable: seq<Msg>, expired: seq<Msg>, lost: seq<Gone>)
    requires Renames(b, o, readable, expired, lost)
    ensures Lossless(b, o.box, [], expired) <==> lost == [] && Nameless(readable)
  {
    NamesAreLost(readable, lost);
    forall m: Msg
      ensures Held(b, m) + Count([], m) <= Held(o.box, m) + Count(expired, m) <==>
              Count(readable, m) + CountGone(lost, m) <= Count(WithoutIds(readable), m)
    {
      assert Held(b, m) + Count(WithoutIds(readable), m) == Held(o.box, m) + Count(readable, m) + Count(expired, m) +
             CountGone(lost, m);
    }
    if Lossless(b, o.box, [], expired) {
      forall m: Msg ensures Count(readable, m) + CountGone(lost, m) <= Count(WithoutIds(readable), m) {
        assert Held(b, m) + Count([], m) <= Held(o.box, m) + Count(expired, m);
      }
    }
  }

  /* ---------- sends and deliveries ---------- */

  ghost predicate SafeBuffer(b: Box, m: Msg, now: int) {
    var live := Fresh(b.buffer, now - INBOUND_TTL_MS);
    !(HasId(m.id) && CarriesId(live, m.id)) && |live| < BUFFER_MAX
  }

  ghost predicate SafeSend(b: Box, m: Msg, now: int, digest: Digest) {
    if b.paused then |b.pauseHeld| < CAP_POR_AGENTE
    else if TurnedAway(b, m) then false
    else if b.draining then !(HasId(m.id) && CarriesId(b.drainHeld, m.id))
    else if b.runner.None? || b.spooled != [] then SafeBuffer(b, m, now)
    else if b.parado then NewKeys(Vivos(b.retained, now), [Item(m, now, Inbound, false, false)], digest)
    else Takes(b.runner.value, m, 0)
  }

  lemma FatedIsEmpty(f: Fate, msgs: seq<Msg>)
    ensures Fated(f, msgs) == [] <==> msgs == []
  {
    assert |Fated(f, msgs)| == |msgs|;
  }

  lemma FatedItemsEmpty(f: Fate, items: seq<Item>)
    ensures Fated(f, Loads(items)) == [] <==> items == []
  {
    assert |Fated(f, Loads(items))| == |items|;
  }

  /** What leaves is what was let go and what `lost` says, and `lost` is empty exactly when `safe`. */
  ghost predicate Accounts(o: Outcome, expired: seq<Msg>, safe: bool) {
    exists lost: seq<Gone> :: Loses(o, expired, lost) && (lost == [] <==> safe)
  }

  lemma AccountsFor(b: Box, o: Outcome, expired: seq<Msg>, safe: bool)
    requires (forall m: Msg :: Balanced(b, o, m)) && Accounts(o, expired, safe)
    ensures Lossless(b, o.box, o.entered, expired) <==> safe
  {
    var lost: seq<Gone> :| Loses(o, expired, lost) && (lost == [] <==> safe);
    LossIsWhatLeaves(b, o, expired, lost);
  }

  lemma PlainAccounts(o: Outcome, safe: bool)
    requires o.gone == [] <==> safe
    ensures Accounts(o, [], safe)
  {
    AllLeaves(o);
  }

  lemma RetainAccounts(b: Box, novos: seq<Item>, now: int, digest: Digest)
    requires |b.retained| <= CAP_POR_AGENTE
    ensures Accounts(Retain(b, novos, now, digest), Loads(Stale(b.retained, now - TTL_ITEM_MS)),
            NewKeys(Vivos(b.retained, now), novos, digest))
  {
    var vivos, stale := Vivos(b.retained, now), Loads(Stale(b.retained, now - TTL_ITEM_MS));
    FreshAndStale(b.retained, now - TTL_ITEM_MS);
    NewKeysIsExact(vivos, novos, digest);
    var d, v := Fated(Duplicate, Loads(Recusados(vivos, novos, digest))),
      Fated(Evicted, Loads(Descartados(vivos, novos, digest)));
    FatedItemsEmpty(Duplicate, Recusados(vivos, novos, digest));
    FatedItemsEmpty(Evicted, Descartados(vivos, novos, digest));
    assert Retain(b, novos, now, digest).gone == Fated(Expired, stale) + (d + v);
    ExpiredFirst(Retain(b, novos, now, digest), stale, d + v);
  }

  lemma BufferAccounts(b: Box, m: Msg, now: int)
    ensures Accounts(BufferUp(b, m, Plain(m, now), now), Loads(Stale(b.buffer, now - INBOUND_TTL_MS)),
            SafeBuffer(b, m, now))
  {
    var live, stale := Fresh(b.buffer, now - INBOUND_TTL_MS), Loads(Stale(b.buffer, now - INBOUND_TTL_MS));
    var o := BufferUp(b, m, Plain(m, now), now);
    if HasId(m.id) && CarriesId(live, m.id) {
      ExpiredFirst(o, stale, [Gone(Duplicate, m)]);
    } else {
      var out := CutOff(live + [StampArrival(Plain(m, now), now)], BUFFER_MAX);
      FatedItemsEmpty(Evicted, out);
      ExpiredFirst(o, stale, Fated(Evicted, Loads(out)));
    }
  }

  lemma EvictionAccounts(o: Outcome, held: seq<Item>, items: seq<Item>, front: bool)
    requires o.gone == Fated(Evicted, Loads(PushedOutOfPause(held, items, front)))
    ensures Accounts(o, [], Fits(held, |items|))
  {
    FitsExactly(held, items, front);
    FatedItemsEmpty(Evicted, PushedOutOfPause(held, items, front));
    PlainAccounts(o, Fits(held, |items|));
  }

  lemma SendAccounts(b: Box, m: Msg, now: int, digest: Digest)
    requires WellKept(b)
    ensures Accounts(Send(b, m, now, digest), Expires(b, DoSend(m, now)), SafeSend(b, m, now, digest))
    ensures Send(b, m, now, digest).entered == [m]
  {
    var o := Send(b, m, now, digest);
    if b.paused {
      EvictionAccounts(o, b.pauseHeld, [Plain(m, now)], false);
    } else if TurnedAway(b, m) || b.draining {
      PlainAccounts(o, SafeSend(b, m, now, digest));
    } else if b.runner.None? || b.spooled != [] {
      assert m.(member := false) == m;
      BufferAccounts(b, m, now);
    } else if b.parado {
      assert m.(member := false) == m;
      ParadoAccounts(b, m, now, digest);
    } else {
      assert b.runner.value.pushes + 0 == b.runner.value.pushes;
      PlainAccounts(o, SafeSend(b, m, now, digest));
    }
  }

  lemma ParadoAccounts(b: Box, m: Msg, now: int, digest: Digest)
    requires |b.retained| <= CAP_POR_AGENTE
    ensures var item := Item(m, now, Inbound, false, false);
            Accounts(Retain(b, [item], now, digest).(entered := [m]), Loads(Stale(b.retained, now - TTL_ITEM_MS)),
                     NewKeys(Vivos(b.retained, now), [item], digest))
  {
    var item := Item(m, now, Inbound, false, false);
    var o := Retain(b, [item], now, digest);
    RetainAccounts(b, [item], now, digest);
    SameGoneAccounts(o, o.(entered := [m]), Loads(Stale(b.retained, now - TTL_ITEM_MS)),
                     NewKeys(Vivos(b.retained, now), [item], digest));
  }

  lemma SameGoneAccounts(o: Outcome, p: Outcome, expired: seq<Msg>, safe: bool)
    requires Accounts(o, expired, safe) && p.gone == o.gone
    ensures Accounts(p, expired, safe)
  {
    var lost: seq<Gone> :| Loses(o, expired, lost) && (lost == [] <==> safe);
    assert Loses(p, expired, lost);
  }

  /* ---------- changes of state ---------- */

  lemma TakeToPauseAccounts(b: Box, now: int)
    ensures Accounts(TakeToPause(b, now), [], Fits(b.pauseHeld, |QueueOf(b)|))
  {
    if QueueOf(b) == [] {
      PlainAccounts(TakeToPause(b, now), true);
    } else {
      EvictionAccounts(TakeToPause(b, now), b.pauseHeld, Stamp(QueueOf(b), now), true);
    }
  }

  /** The end of a pause loses nothing: nothing is released, or all of it finds its place. */
  ghost predicate SafeRelease(b: Box) {
    b.paused || b.pauseHeld == [] || b.runner.None? || b.parado || b.spooled != [] ||
    if b.draining then NoSecondCopy(b.drainHeld, b.pauseHeld) else TakesAll(b.runner.value, Loads(b.pauseHeld), 0)
  }

  lemma LiberarLoses(b: Box)
    ensures Liberar(b).gone == [] <==> SafeRelease(b)
  {
    if b.paused || b.pauseHeld == [] || b.runner.None? || b.parado || b.spooled != [] {
    } else if b.draining {
      NoSecondCopyIsExact(b.drainHeld, b.pauseHeld);
      FatedItemsEmpty(Duplicate, DrainDuplicates(b.drainHeld, b.pauseHeld));
    } else {
      PushAllExact(b.runner.value, Loads(b.pauseHeld));
    }
  }

  ghost predicate SafeReconnect(b: Box, paused: bool) {
    b.runner.None? || if paused then Fits(b.pauseHeld, |QueueOf(b)|) else SafeRelease(b.(paused := false))
  }

  lemma ReconnectAccounts(b: Box, paused: bool, now: int)
    ensures Accounts(Reconnect(b, paused, now), [], SafeReconnect(b, paused))
  {
    var c := b.(paused := paused);
    if b.runner.None? {
      PlainAccounts(Reconnect(b, paused, now), true);
    } else if paused {
      TakeToPauseAccounts(c, now);
    } else {
      LiberarLoses(c);
      PlainAccounts(Reconnect(b, paused, now), SafeRelease(c));
    }
  }

  ghost predicate SafeRetain(b: Box, source: Source, now: int, digest: Digest) {
    QueueOf(b) == [] || NewKeys(Vivos(b.retained, now), WithSource(QueueOf(b), now, source), digest)
  }

  lemma RetainQueueAccounts(b: Box, source: Source, now: int, digest: Digest)
    requires |b.retained| <= CAP_POR_AGENTE
    ensures Accounts(RetainQueue(b, source, now, digest), RetainExpires(b, now), SafeRetain(b, source, now, digest))
  {
    if QueueOf(b) == [] {
      PlainAccounts(Quiet(b), true);
    } else {
      RetainAccounts(b.(runner := Some(b.runner.value.(queue := []))), WithSource(QueueOf(b), now, source), now,
        digest);
    }
  }

  /** What leaves before and after is lost beside what the operation itself loses. */
  lemma AccountsBetween(o: Outcome, p: Outcome, before: seq<Gone>, expired: seq<Msg>, safe: bool)
    requires Accounts(o, expired, safe) && p.gone == before + o.gone
    ensures Accounts(p, expired, before == [] && safe)
  {
    var lost: seq<Gone> :| Loses(o, expired, lost) && (lost == [] <==> safe);
    forall m: Msg ensures CountGone(p.gone, m) == Count(expired, m) + CountGone(before + lost, m) {
      GoneOfAppend(before, o.gone, m);
      GoneOfAppend(before, lost, m);
    }
    assert Loses(p, expired, before + lost);
  }

  lemma KilledTurn(b: Box)
    ensures var k := KillTurn(b);
            && (k.gone == [] <==> InFlightOf(b) == []) && QueueOf(k.box) == QueueOf(b) &&
              k.box.retained == b.retained && k.entered == []
  {
    FatedIsEmpty(Killed, InFlightOf(b));
  }

  lemma StopAccounts(b: Box, now: int, digest: Digest)
    requires WellKept(b)
    ensures Accounts(Stop(b, now, digest), RetainExpires(b, now), InFlightOf(b) == [] &&
            SafeRetain(b, FromStop, now, digest))
    ensures Stop(b, now, digest).entered == []
  {
    if b.runner.None? {
      PlainAccounts(Quiet(b), true);
    } else {
      var killed := KillTurn(b.(parado := true));
      KilledTurn(b.(parado := true));
      RetainQueueAccounts(killed.box, FromStop, now, digest);
      AccountsBetween(RetainQueue(killed.box, FromStop, now, digest), Stop(b, now, digest), killed.gone,
        RetainExpires(b, now), SafeRetain(b, FromStop, now, digest));
    }
  }

  lemma SpawnAccounts(b: Box, paused: bool, r: Runner, project: Option<string>, now: int, digest: Digest)
    requires WellKept(b)
    ensures Accounts(Spawn(b, paused, r, project, now, digest), RetainExpires(b, now), InFlightOf(b) == [] &&
            SafeRetain(b, Replace, now, digest))
    ensures Spawn(b, paused, r, project, now, digest).entered == []
  {
    var killed := KillTurn(b.(paused := paused));
    KilledTurn(b.(paused := paused));
    var retained := RetainQueue(killed.box, Replace, now, digest);
    RetainQueueAccounts(killed.box, Replace, now, digest);
    assert Spawn(b, paused, r, project, now, digest).gone == killed.gone + retained.gone;
    AccountsBetween(retained, Spawn(b, paused, r, project, now, digest), killed.gone, RetainExpires(b, now),
      SafeRetain(b, Replace, now, digest));
  }

  lemma StartDrainAccounts(b: Box, now: int)
    ensures Accounts(StartDrain(b, now), [], NoSecondCopy(b.drainHeld, Stamp(QueueOf(b), now)))
  {
    var items := Stamp(QueueOf(b), now);
    NoSecondCopyIsExact(b.drainHeld, items);
    FatedItemsEmpty(Duplicate, DrainDuplicates(b.drainHeld, items));
    PlainAccounts(StartDrain(b, now), NoSecondCopy(b.drainHeld, items));
  }

  ghost predicate SafeHold(b: Box) {
    InFlightOf(b) == [] || !(HasId(InFlightOf(b)[0].id) && CarriesId(b.drainHeld, InFlightOf(b)[0].id))
  }

  lemma HoldInFlightAccounts(b: Box, now: int)
    ensures Accounts(HoldInFlight(b, now), [], SafeHold(b))
  {
    PlainAccounts(HoldInFlight(b, now), SafeHold(b));
  }

  /* ---------- departures ---------- */

  lemma RemoveAccounts(b: Box, id: string)
    ensures Accounts(Remove(b, id), Wanted(b, id), true) && Remove(b, id).entered == []
  {
    RemovalFinds(b, id);
    OnlyLetGo(Remove(b, id), Removed, Wanted(b, id));
  }

  lemma TurnAccounts(b: Box)
    ensures Accounts(StartTurn(b), [], true) && Accounts(FinishTurn(b), InFlightOf(b), true)
  {
    FatedIsEmpty(Finished, []);
    PlainAccounts(StartTurn(b), true);
    OnlyLetGo(FinishTurn(b), Finished, InFlightOf(b));
  }

  lemma ExitAccounts(b: Box)
    ensures Accounts(Exit(b), [], QueueOf(b) + InFlightOf(b) == [])
  {
    FatedIsEmpty(Killed, QueueOf(b) + InFlightOf(b));
    PlainAccounts(Exit(b), QueueOf(b) + InFlightOf(b) == []);
  }

  lemma ChangeAccounts(b: Box, accepts: nat -> bool, blocked: nat -> bool, tells: nat -> nat)
    ensures Accounts(ChangeRunner(b, accepts, blocked, tells), [], true)
  {
    PlainAccounts(ChangeRunner(b, accepts, blocked, tells), true);
  }

  lemma ForgetAccounts(b: Box)
    ensures Accounts(Forget(b), Loads(b.retained), true)
  {
    OnlyLetGo(Forget(b), Forgotten, Loads(b.retained));
  }

  lemma ExpiryAccounts(b: Box, now: int)
    ensures Accounts(ExpireRetained(b, now), Loads(Stale(b.retained, now - TTL_ITEM_MS)), true)
    ensures Accounts(ExpireBuffer(b, now), Loads(Stale(b.buffer, now - INBOUND_TTL_MS)), true)
  {
    OnlyLetGo(ExpireRetained(b, now), Expired, Loads(Stale(b.retained, now - TTL_ITEM_MS)));
    OnlyLetGo(ExpireBuffer(b, now), Expired, Loads(Stale(b.buffer, now - INBOUND_TTL_MS)));
  }

  /* ---------- the retried spool ---------- */

  /**
   * A retry of the spool outside a flush loses nothing: there is no runner, or the agent is paused and
   * nothing waits, or it drains and every record opens and carries no id, or every record that the
   * runner gets to see opens.
   */
  ghost predicate SafeRetry(b: Box, rings: Rings) {
    b.runner.None? ||
    if b.paused then b.spooled == []
    else if b.draining then AllOpenNameless(b.spooled, rings)
    else ReachedOpen(b.runner.value, b.spooled, rings)
  }

  lemma {:induction false} EveryRecordIsReadOrNot(rs: seq<Record>, rings: Rings)
    ensures Readable(rs, rings) == [] && UnreadableMsgs(rs, rings) == [] <==> rs == []
  {
    if rs != [] {
      assert ReadRecord(rs[0], rings).Some? ==> Readable(rs, rings) != [];
    }
  }

  lemma PausedRetryAccounts(b: Box, rings: Rings, now: int)
    requires b.paused && b.runner.Some?
    ensures Accounts(QueueChanged(b, rings, now), [], b.spooled == [])
  {
    var readable, bad := Readable(b.spooled, rings), UnreadableMsgs(b.spooled, rings);
    EveryRecordIsReadOrNot(b.spooled, rings);
    LoadsOfStamp(readable, now);
    FatedIsEmpty(Unreadable, bad);
    FatedIsEmpty(PausedSpool, readable);
    if b.spooled == [] {
      assert Loads([]) == [];
    }
    PlainAccounts(QueueChanged(b, rings, now), b.spooled == []);
  }

  lemma RunnerRetryAccounts(b: Box, rings: Rings, now: int)
    requires !b.paused && !b.draining && b.runner.Some?
    ensures Accounts(QueueChanged(b, rings, now), [], ReachedOpen(b.runner.value, b.spooled, rings))
  {
    PushSpoolExact(b.runner.value, b.spooled, rings);
    assert Loads([]) == [];
    PlainAccounts(QueueChanged(b, rings, now), ReachedOpen(b.runner.value, b.spooled, rings));
  }

  /** A delivery to a drain, with any losses after it. */
  lemma DrainDelivery(b: Box, rings: Rings, now: int)
    requires !b.paused && b.draining
    ensures var o, rs := DeliverSpool(b, rings, now).0, Reach(b);
            && o.entered == WithoutIds(Readable(rs, rings)) && DeliverSpool(b, rings, now).1 == []
            && o.gone == Fated(Unreadable, UnreadableMsgs(rs, rings)) + Fated(Renamed, Readable(rs, rings))
            && o.box == b.(spooled := if b.runner.None? then b.spooled
              else [], drainHeld := b.drainHeld + Stamp(WithoutIds(Readable(rs, rings)), now))
  {
    if Reach(b) == [] {
      assert WithoutIds([]) == [] && b.drainHeld + Stamp([], now) == b.drainHeld;
    }
  }

  lemma DrainRetryRenames(b: Box, rings: Rings, now: int)
    requires WellKept(b) && !b.paused && b.draining
    ensures Renames(b, QueueChanged(b, rings, now), Readable(Reach(b), rings), [],
            Fated(Unreadable, UnreadableMsgs(Reach(b), rings)))
  {
    var readable, bad := Readable(Reach(b), rings), UnreadableMsgs(Reach(b), rings);
    var o := QueueChanged(b, rings, now);
    DrainDelivery(b, rings, now);
    assert Loads([]) == [] && Fated(PausedSpool, []) == [];
    assert o.gone == Fated(Unreadable, bad) + Fated(Renamed, readable);
    forall m: Msg
      ensures Held(b, m) + Count(WithoutIds(readable), m) ==
              Held(o.box, m) + Count(readable, m) + Count([], m) + CountGone(Fated(Unreadable, bad), m)
    {
      QueueChangedBalances(b, rings, now, m);
      GoneOfAppend(Fated(Unreadable, bad), Fated(Renamed, readable), m);
      GoneOfFated(Renamed, readable, m);
    }
  }

  lemma DrainRetryLoses(b: Box, rings: Rings, now: int)
    requires WellKept(b) && !b.paused && b.draining
    ensures Lossless(b, QueueChanged(b, rings, now).box, [], []) <==> AllOpenNameless(Reach(b), rings)
  {
    DrainRetryRenames(b, rings, now);
    RenamingLoses(b, QueueChanged(b, rings, now), Readable(Reach(b), rings), [],
      Fated(Unreadable, UnreadableMsgs(Reach(b), rings)));
    FatedIsEmpty(Unreadable, UnreadableMsgs(Reach(b), rings));
    OpenNamelessIsExact(Reach(b), rings);
  }

  lemma RetryWithoutRunner(b: Box, rings: Rings, now: int)
    requires b.runner.None?
    ensures Accounts(QueueChanged(b, rings, now), [], true) && QueueChanged(b, rings, now).entered == []
  {
    assert Loads([]) == [];
    PlainAccounts(QueueChanged(b, rings, now), true);
  }

  lemma RetryLoses(b: Box, rings: Rings, now: int)
    requires WellKept(b)
    ensures Lossless(b, QueueChanged(b, rings, now).box, [], []) <==> SafeRetry(b, rings)
  {
    forall m: Msg ensures Balanced(b, QueueChanged(b, rings, now), m) {
      QueueChangedBalances(b, rings, now, m);
    }
    if b.runner.None? {
      RetryWithoutRunner(b, rings, now);
      AccountsFor(b, QueueChanged(b, rings, now), [], true);
    } else if b.paused {
      PausedRetryAccounts(b, rings, now);
      AccountsFor(b, QueueChanged(b, rings, now), [], SafeRetry(b, rings));
    } else if b.draining {
      DrainRetryLoses(b, rings, now);
    } else {
      RunnerRetryAccounts(b, rings, now);
      AccountsFor(b, QueueChanged(b, rings, now), [], SafeRetry(b, rings));
    }
  }

  /* ---------- a delivery, and the hook it may set off ---------- */

  /** The hook, called this often after `k` pushes, loses nothing: what it retries opens, and in a drain has no id. */
  ghost predicate SafeHook(b: Box, k: nat, times: nat, rings: Rings)
    requires b.runner.Some?
  {
    if b.draining then times == 0 || AllOpenNameless(b.spooled, rings)
    else RetriesOpen(b.runner.value, Course(k, b.spooled), times, rings)
  }

  /**
   * A delivery loses nothing: there is no runner; or the agent is paused, holds nothing with that id and has
   * room; or what the runner's calls of the queue hook retry from the spool is not lost.
   */
  ghost predicate SafeDeliver(b: Box, m: Msg, rings: Rings) {
    b.runner.None? ||
    if b.paused then !CarriesId(b.pauseHeld, m.id) && |b.pauseHeld| < CAP_POR_AGENTE
    else SafeHook(b, 1, CallsAt(b.runner.value, m, 0), rings)
  }

  lemma {:induction false} EmptySpoolHook(b: Box, times: nat, rings: Rings, now: int)
    requires b.spooled == []
    ensures Told(b, times, rings, now) == Quiet(b)
    decreases times
  {
    if times > 0 {
      EmptySpoolHook(b, times - 1, rings, now);
      assert Loads([]) == [] && Fated(PausedSpool, []) == [];
    }
  }

  /** In a drain the first call empties the spool, and the others find nothing. */
  lemma {:induction false} HookInDrain(b: Box, times: nat, rings: Rings, now: int)
    requires !b.paused && b.draining && b.runner.Some? && times > 0
    ensures Told(b, times, rings, now).box == QueueChanged(b, rings, now).box
    ensures Told(b, times, rings, now).box.spooled == []
    decreases times
  {
    if times == 1 {
      assert Told(b, 0, rings, now) == Quiet(b);
    } else {
      HookInDrain(b, times - 1, rings, now);
      assert Told(b, times - 1, rings, now).box.spooled == [];
    }
  }

  lemma HookLoses(r: Runner, k: nat, b: Box, times: nat, rings: Rings, now: int)
    requires WellKept(b) && !b.paused && b.runner.Some? && Later(r, b.runner.value, k)
    ensures Lossless(b, Told(b, times, rings, now).box, [], []) <==> SafeHook(b.(runner := Some(r)), k, times, rings)
  {
    if b.draining {
      DrainHookLoses(b, times, rings, now);
    } else {
      RunnerHookLoses(r, k, b, times, rings, now);
    }
  }

  lemma DrainHookLoses(b: Box, times: nat, rings: Rings, now: int)
    requires WellKept(b) && !b.paused && b.runner.Some? && b.draining
    ensures Lossless(b, Told(b, times, rings, now).box, [], []) <==> times == 0 || AllOpenNameless(b.spooled, rings)
  {
    if times == 0 {
      assert Told(b, times, rings, now) == Quiet(b);
    } else {
      HookInDrain(b, times, rings, now);
      DrainRetryLoses(b, rings, now);
    }
  }

  lemma RunnerHookLoses(r: Runner, k: nat, b: Box, times: nat, rings: Rings, now: int)
    requires WellKept(b) && !b.paused && b.runner.Some? && !b.draining && Later(r, b.runner.value, k)
    ensures Lossless(b, Told(b, times, rings, now).box, [], []) <==>
            RetriesOpen(r, Course(k, b.spooled), times, rings)
  {
    ToldCourse(r, b, Course(k, b.spooled), times, rings, now);
    forall m: Msg ensures Balanced(b, Told(b, times, rings, now), m) {
      ToldBalances(b, times, rings, now, m);
    }
    PlainAccounts(Told(b, times, rings, now), RetriesOpen(r, Course(k, b.spooled), times, rings));
    AccountsFor(b, Told(b, times, rings, now), [], RetriesOpen(r, Course(k, b.spooled), times, rings));
  }

  /** The push itself: held before and what arrived is held after. */
  lemma PushIsExact(b: Box, m: Msg, x: Msg)
    requires b.runner.Some?
    ensures Held(b, x) + Count(Delivered(b, m).entered, x) == Held(Delivered(b, m).box, x)
  {
    var (r, ok) := PushTo(b.runner.value, m);
    CountOfAppend(b.runner.value.queue, [m], x);
  }

  lemma PushThenHook(b: Box, m: Msg, d: Box)
    requires b.runner.Some?
    ensures Lossless(b, d, Delivered(b, m).entered, []) <==> Lossless(Delivered(b, m).box, d, [], [])
  {
    forall x: Msg ensures Held(b, x) + Count(Delivered(b, m).entered, x) == Held(Delivered(b, m).box, x) {
      PushIsExact(b, m, x);
    }
    if Lossless(b, d, Delivered(b, m).entered, []) {
      forall x: Msg ensures Held(Delivered(b, m).box, x) + Count([], x) <= Held(d, x) + Count([], x) {
        assert Held(b, x) + Count(Delivered(b, m).entered, x) <= Held(d, x) + Count([], x);
      }
    }
    if Lossless(Delivered(b, m).box, d, [], []) {
      forall x: Msg ensures Held(b, x) + Count(Delivered(b, m).entered, x) <= Held(d, x) + Count([], x) {
        assert Held(Delivered(b, m).box, x) + Count([], x) <= Held(d, x) + Count([], x);
      }
    }
  }

  lemma OfferLoses(b: Box, m: Msg, rings: Rings, now: int)
    requires WellKept(b) && b.runner.Some? && !b.paused && !Gated(b.runner.value, m)
    ensures var (o, ok) := QueueDeliver(b, m, rings, now);
            Lossless(b, o.box, if ok then [m] else [], []) <==> SafeDeliver(b, m, rings)
  {
    var r, c := b.runner.value, Delivered(b, m).box;
    assert r.pushes + 0 == r.pushes;
    var times := Calls(r, m);
    HookLoses(r, 1, c, times, rings, now);
    PushThenHook(b, m, Told(c, times, rings, now).box);
    assert c.(runner := Some(r)) == b;
  }

  /** A delivery loses nothing exactly on these states. */
  lemma DeliverLoses(b: Box, m: Msg, rings: Rings, now: int)
    requires WellKept(b)
    ensures var (o, ok) := QueueDeliver(b, m, rings, now);
            Lossless(b, o.box, if ok then [m] else [], []) <==> SafeDeliver(b, m, rings)
  {
    if b.runner.Some? && !b.paused {
      if Gated(b.runner.value, m) {
        assert b.runner.value.pushes + 0 == b.runner.value.pushes;
        NeverCalled(b, m, rings);
      } else {
        OfferLoses(b, m, rings, now);
      }
    } else {
      HeldDeliveryLoses(b, m, rings, now);
    }
  }

  lemma NeverCalled(b: Box, m: Msg, rings: Rings)
    requires b.runner.Some? && !b.paused && !Takes(b.runner.value, m, 0)
    ensures SafeDeliver(b, m, rings)
  {
  }

  lemma HeldDeliveryLoses(b: Box, m: Msg, rings: Rings, now: int)
    requires WellKept(b) && (b.runner.None? || b.paused)
    ensures var (o, ok) := QueueDeliver(b, m, rings, now);
            Lossless(b, o.box, if ok then [m] else [], []) <==> SafeDeliver(b, m, rings)
  {
    var o := QueueDeliver(b, m, rings, now).0;
    forall x: Msg ensures Balanced(b, o, x) {
      QueueDeliverBalances(b, m, rings, now, x);
    }
    if b.runner.Some? && !CarriesId(b.pauseHeld, m.id) {
      EvictionAccounts(o, b.pauseHeld, [Plain(m, now)], false);
    } else {
      PlainAccounts(o, SafeDeliver(b, m, rings));
    }
    AccountsFor(b, o, [], SafeDeliver(b, m, rings));
  }

  /* ---------- the flush ---------- */

  /** What a flush releases behind the spool: the pause queue, unless the agent is stopped or some spool is left. */
  function Released(b: Box, rest: seq<Record>): seq<Msg> {
    if b.parado || rest != [] then [] else Loads(b.pauseHeld)
  }

  /**
   * Behind the first delivery of the spool: the runner takes what is released, and then each fresh message of
   * the buffer in its turn, where the turn counts the pushes that retry the rest of the spool from inside an
   * earlier one.
   */
  ghost predicate SafeBehind(b: Box, r: Runner, first: Course, rings: Rings, now: int) {
    var released := Released(b, first.rest);
    TakesAll(r, released, first.n) &&
    AllPass(r, Course(first.n + |released|, first.rest), Loads(Fresh(b.buffer, now - INBOUND_TTL_MS)), rings)
  }

  /** A flush to a runner loses nothing: every record that the first delivery reaches opens, and so goes the rest. */
  ghost predicate SafeFlushToRunner(b: Box, r: Runner, rings: Rings, now: int) {
    ReachedOpen(r, b.spooled, rings) && SafeBehind(b, r, Retried(r, Course(0, b.spooled), rings), rings, now)
  }

  /** A flush loses nothing. */
  ghost predicate SafeFlush(b: Box, rings: Rings, now: int) {
    var pending, rs := Fresh(b.buffer, now - INBOUND_TTL_MS), Reach(b);
    if b.paused then AllOpen(rs, rings) && Fits(b.pauseHeld, |Readable(rs, rings)| + |pending|)
    else if b.draining then AllOpenNameless(rs, rings) && NoSecondCopy(b.drainHeld, pending)
    else if b.runner.None? then pending == []
    else SafeFlushToRunner(b, b.runner.value, rings, now)
  }

  lemma PausedFlushAccounts(b: Box, rings: Rings, now: int)
    requires b.paused
    ensures Accounts(Flush(b, rings, now), Loads(Stale(b.buffer, now - INBOUND_TTL_MS)), SafeFlush(b, rings, now))
    ensures Flush(b, rings, now).entered == []
  {
    var (spool, held) := DeliverSpool(b, rings, now);
    var pending, stale := Fresh(b.buffer, now - INBOUND_TTL_MS), Loads(Stale(b.buffer, now - INBOUND_TTL_MS));
    var bad := Fated(Unreadable, UnreadableMsgs(Reach(b), rings));
    PausedReading(b, rings, now);
    OpenIsExact(Reach(b), rings);
    FatedIsEmpty(Unreadable, UnreadableMsgs(Reach(b), rings));
    var out := PushedOutOfPause(b.pauseHeld, held + pending, true);
    FitsExactly(b.pauseHeld, held + pending, true);
    FatedItemsEmpty(Evicted, out);
    ExpiredBetween(Flush(b, rings, now), bad, stale, Fated(Evicted, Loads(out)));
  }

  lemma PausedReading(b: Box, rings: Rings, now: int)
    requires b.paused
    ensures var (o, held) := DeliverSpool(b, rings, now);
            && o.gone == Fated(Unreadable, UnreadableMsgs(Reach(b), rings)) && o.entered == []
            && |held| == |Readable(Reach(b), rings)|
            && o.box == b.(spooled := if b.runner.None? then b.spooled else [])
  {
    assert Fated(Unreadable, []) == [];
  }

  lemma DrainFlushRenames(b: Box, rings: Rings, now: int)
    requires WellKept(b) && !b.paused && b.draining
    ensures var readable, bad := Readable(Reach(b), rings), UnreadableMsgs(Reach(b), rings);
            var held := b.drainHeld + Stamp(WithoutIds(readable), now);
            Renames(b, Flush(b, rings, now), readable, Loads(Stale(b.buffer, now - INBOUND_TTL_MS)),
                    Fated(Unreadable, bad) + Fated(Duplicate,
                      Loads(DrainDuplicates(held, Fresh(b.buffer, now - INBOUND_TTL_MS)))))
  {
    var readable, bad := Readable(Reach(b), rings), UnreadableMsgs(Reach(b), rings);
    var held := b.drainHeld + Stamp(WithoutIds(readable), now);
    var stale, o := Loads(Stale(b.buffer, now - INBOUND_TTL_MS)), Flush(b, rings, now);
    var twice := Fated(Duplicate, Loads(DrainDuplicates(held, Fresh(b.buffer, now - INBOUND_TTL_MS))));
    DrainDelivery(b, rings, now);
    assert o.gone == (Fated(Unreadable, bad) + Fated(Renamed, readable)) + (Fated(Expired, stale) + twice);
    forall m: Msg
      ensures Held(b, m) + Count(WithoutIds(readable), m) ==
              Held(o.box, m) + Count(readable, m) + Count(stale, m) + CountGone(Fated(Unreadable, bad) + twice, m)
    {
      FlushBalances(b, rings, now, m);
      FourParts(Fated(Unreadable, bad), Fated(Renamed, readable), Fated(Expired, stale), twice, m);
      GoneOfFated(Renamed, readable, m);
      GoneOfFated(Expired, stale, m);
    }
  }

  lemma FourParts(p: seq<Gone>, q: seq<Gone>, r: seq<Gone>, s: seq<Gone>, m: Msg)
    ensures CountGone((p + q) + (r + s), m) == CountGone(q, m) + CountGone(r, m) + CountGone(p + s, m)
  {
    GoneOfAppend(p + q, r + s, m);
    GoneOfAppend(p, q, m);
    GoneOfAppend(r, s, m);
    GoneOfAppend(p, s, m);
  }

  lemma NamelessDoNotClash(held: seq<Item>, msgs: seq<Msg>, now: int, items: seq<Item>)
    ensures NoSecondCopy(held + Stamp(WithoutIds(msgs), now), items) <==> NoSecondCopy(held, items)
  {
    var more := Stamp(WithoutIds(msgs), now);
    forall i | 0 <= i < |items| && HasId(items[i].msg.id)
      ensures CarriesId(held + more, items[i].msg.id) <==> CarriesId(held, items[i].msg.id)
    {
      CarriesOfAppend(held, more, items[i].msg.id);
    }
  }

  lemma DrainFlushLoses(b: Box, rings: Rings, now: int)
    requires WellKept(b) && !b.paused && b.draining
    ensures Lossless(b, Flush(b, rings, now).box, [], Loads(Stale(b.buffer, now - INBOUND_TTL_MS))) <==>
            SafeFlush(b, rings, now)
  {
    var pending, stale := Fresh(b.buffer, now - INBOUND_TTL_MS), Loads(Stale(b.buffer, now - INBOUND_TTL_MS));
    var readable, bad := Readable(Reach(b), rings), UnreadableMsgs(Reach(b), rings);
    var held := b.drainHeld + Stamp(WithoutIds(readable), now);
    DrainFlushRenames(b, rings, now);
    RenamingLoses(b, Flush(b, rings, now), readable, stale,
      Fated(Unreadable, bad) + Fated(Duplicate, Loads(DrainDuplicates(held, pending))));
    FatedIsEmpty(Unreadable, bad);
    FatedItemsEmpty(Duplicate, DrainDuplicates(held, pending));
    OpenNamelessIsExact(Reach(b), rings);
    NoSecondCopyIsExact(held, pending);
    NamelessDoNotClash(b.drainHeld, readable, now, pending);
  }

  lemma FlushWithoutRunner(b: Box, rings: Rings, now: int)
    requires !b.paused && !b.draining && b.runner.None?
    ensures Accounts(Flush(b, rings, now), Loads(Stale(b.buffer, now - INBOUND_TTL_MS)), SafeFlush(b, rings, now))
    ensures Flush(b, rings, now).entered == []
  {
    var pending, stale := Fresh(b.buffer, now - INBOUND_TTL_MS), Loads(Stale(b.buffer, now - INBOUND_TTL_MS));
    FatedItemsEmpty(RunnerGone, pending);
    var o := Flush(b, rings, now);
    assert o.gone == Fated(Expired, stale) + Fated(RunnerGone, Loads(pending));
    ExpiredFirst(o, stale, Fated(RunnerGone, Loads(pending)));
  }

  /** The buffer's part of a flush to a runner, from where its spool part ended. */
  lemma BufferPart(b: Box, r: Runner, at: Course, rings: Rings, now: int) returns (o: Outcome, lost: seq<Gone>)
    requires On(r, b, at)
    ensures o == FlushBuffer(b, [], rings, now) && o.entered == []
    ensures o.gone == Fated(Expired, Loads(Stale(b.buffer, now - INBOUND_TTL_MS))) + lost
    ensures lost == [] <==> SafeBehind(b, r, at, rings, now)
  {
    var freed := Freed(b, r, at);
    var pending := Loads(Fresh(b.buffer, now - INBOUND_TTL_MS));
    var d := BufferAfter(r, freed, at.n + |Released(b, at.rest)|, at.rest, pending, rings, now);
    o := BufferInTwoParts(b, freed, d, rings, now);
    lost := LostBehind(b, r, at, freed.gone, d.gone, rings, now);
  }

  lemma LostBehind(b: Box, r: Runner, at: Course, freed: seq<Gone>, behind: seq<Gone>, rings: Rings, now: int)
    returns (lost: seq<Gone>)
    requires freed == [] <==> TakesAll(r, Released(b, at.rest), at.n)
    requires freed == [] ==>
               (behind == [] <==> AllPass(r, Course(at.n + |Released(b, at.rest)|, at.rest),
                                          Loads(Fresh(b.buffer, now - INBOUND_TTL_MS)), rings))
    ensures lost == freed + behind && (lost == [] <==> SafeBehind(b, r, at, rings, now))
  {
    lost := freed + behind;
  }

  lemma Freed(b: Box, r: Runner, at: Course) returns (freed: Outcome)
    requires On(r, b, at)
    ensures freed == Liberar(b.(buffer := [], listed := false))
    ensures freed.box.runner.Some? && freed.entered == [] && !freed.box.paused && !freed.box.draining
    ensures freed.gone == [] <==> TakesAll(r, Released(b, at.rest), at.n)
    ensures freed.gone == [] ==> On(r, freed.box, Course(at.n + |Released(b, at.rest)|, at.rest))
  {
    ReleasePart(b.(buffer := [], listed := false), r, at, Released(b, at.rest));
    freed := Liberar(b.(buffer := [], listed := false));
  }

  lemma BufferAfter(r: Runner, freed: Outcome, n: nat, rest: seq<Record>, msgs: seq<Msg>, rings: Rings, now: int)
    returns (d: Outcome)
    requires freed.box.runner.Some? && !freed.box.paused && !freed.box.draining
    requires freed.gone == [] ==> On(r, freed.box, Course(n, rest))
    ensures d == PushBuffer(freed.box, msgs, rings, now) && d.entered == []
    ensures freed.gone == [] ==> (d.gone == [] <==> AllPass(r, Course(n, rest), msgs, rings))
  {
    d := PushBuffer(freed.box, msgs, rings, now);
    if freed.gone == [] {
      PushBufferExact(r, freed.box, Course(n, rest), msgs, rings, now);
    } else {
      PushBufferExact(freed.box.runner.value, freed.box, Course(0, freed.box.spooled), msgs, rings, now);
    }
  }

  lemma ReleasePart(b: Box, r: Runner, at: Course, released: seq<Msg>)
    requires On(r, b, at) && released == Released(b, at.rest)
    ensures var freed := Liberar(b);
            && freed.box.runner.Some? && freed.entered == [] && !freed.box.paused && !freed.box.draining
            && (freed.gone == [] <==> TakesAll(r, released, at.n))
            && (freed.gone == [] ==> On(r, freed.box, Course(at.n + |released|, at.rest)))
  {
    if released != [] {
      PushAllExact(b.runner.value, released);
      TakesAllLater(r, b.runner.value, at.n, released, 0);
    }
  }

  lemma BufferInTwoParts(b: Box, freed: Outcome, d: Outcome, rings: Rings, now: int) returns (o: Outcome)
    requires !b.paused && !b.draining && freed == Liberar(b.(buffer := [], listed := false))
    requires freed.box.runner.Some? && freed.entered == [] && d.entered == []
    requires d == PushBuffer(freed.box, Loads(Fresh(b.buffer, now - INBOUND_TTL_MS)), rings, now)
    ensures o == FlushBuffer(b, [], rings, now) && o.entered == []
    ensures o.gone == Fated(Expired, Loads(Stale(b.buffer, now - INBOUND_TTL_MS))) + (freed.gone + d.gone)
  {
    o := FlushBuffer(b, [], rings, now);
    Regrouped(Fated(Expired, Loads(Stale(b.buffer, now - INBOUND_TTL_MS))), freed.gone, d.gone);
  }

  lemma Regrouped(a: seq<Gone>, b: seq<Gone>, c: seq<Gone>)
    ensures a + b + c == a + (b + c)
  {
  }

  lemma FlushToRunnerAccounts(b: Box, rings: Rings, now: int)
    requires !b.paused && !b.draining && b.runner.Some?
    ensures Accounts(Flush(b, rings, now), Loads(Stale(b.buffer, now - INBOUND_TTL_MS)), SafeFlush(b, rings, now))
    ensures Flush(b, rings, now).entered == []
  {
    var o := FlushInTwoParts(b, b.runner.value, rings, now);
  }

  /** A flush to a runner, from its two parts: the spool's, and the rest's. */
  lemma FlushInTwoParts(b: Box, r: Runner, rings: Rings, now: int) returns (o: Outcome)
    requires !b.paused && !b.draining && b.runner == Some(r)
    ensures o == Flush(b, rings, now) && o.entered == []
    ensures Accounts(o, Loads(Stale(b.buffer, now - INBOUND_TTL_MS)), SafeFlushToRunner(b, r, rings, now))
  {
    var spool, first := FirstPart(b, r, rings, now);
    var rest, lost := BufferPart(spool.box, r, first, rings, now);
    o := FlushIs(b, spool, rest, rings, now);
    SameBehind(b, spool.box, r, first, rings, now);
    BothParts(o, spool.gone, Loads(Stale(b.buffer, now - INBOUND_TTL_MS)), lost, SafeFlushToRunner(b, r, rings, now));
  }

  lemma SameBehind(b: Box, c: Box, r: Runner, at: Course, rings: Rings, now: int)
    requires c == b.(runner := c.runner, spooled := c.spooled)
    ensures SafeBehind(b, r, at, rings, now) <==> SafeBehind(c, r, at, rings, now)
  {
  }

  /** The spool's part: it ends on the course. */
  lemma FirstPart(b: Box, r: Runner, rings: Rings, now: int) returns (spool: Outcome, first: Course)
    requires !b.paused && !b.draining && b.runner == Some(r)
    ensures DeliverSpool(b, rings, now) == (spool, []) && spool.entered == []
    ensures first == Retried(r, Course(0, b.spooled), rings) && On(r, spool.box, first)
    ensures spool.box == b.(runner := spool.box.runner, spooled := spool.box.spooled)
    ensures spool.gone == [] <==> ReachedOpen(r, b.spooled, rings)
  {
    spool, first := DeliverSpool(b, rings, now).0, Retried(r, Course(0, b.spooled), rings);
    SpoolPart(b, rings, now);
    RetriedFirst(r, b.spooled, rings);
  }

  lemma RetriedFirst(r: Runner, rs: seq<Record>, rings: Rings)
    ensures Retried(r, Course(0, rs), rings) == Course(SpoolPushes(r, Readable(rs, rings)), RestOf(r, rs, rings))
  {
    assert After(r, 0) == r;
  }

  lemma FlushIs(b: Box, spool: Outcome, rest: Outcome, rings: Rings, now: int) returns (o: Outcome)
    requires DeliverSpool(b, rings, now) == (spool, []) && spool.entered == [] && rest.entered == []
    requires rest == FlushBuffer(spool.box, [], rings, now)
    ensures o == Flush(b, rings, now) && o.gone == spool.gone + rest.gone && o.entered == []
  {
    o := Then(spool, rest);
  }

  lemma BothParts(o: Outcome, before: seq<Gone>, expired: seq<Msg>, after: seq<Gone>, safe: bool)
    requires o.gone == before + (Fated(Expired, expired) + after) && (before == [] && after == [] <==> safe)
    ensures Accounts(o, expired, safe)
  {
    ExpiredBetween(o, before, expired, after);
  }

  /**
   * When the runner takes all that is readable of the spool, that means: it takes the pause queue, unless the
   * agent is stopped, and the fresh buffer in a row behind it.
   */
  lemma SafeWhenThrough(b: Box, r: Runner, rings: Rings, now: int)
    requires TakesAll(r, Readable(b.spooled, rings), 0)
    ensures SafeFlushToRunner(b, r, rings, now) <==>
            ReachedOpen(r, b.spooled, rings) &&
            TakesAll(r, Released(b, []) + Loads(Fresh(b.buffer, now - INBOUND_TTL_MS)), |Readable(b.spooled, rings)|)
  {
    RetriedFirst(r, b.spooled, rings);
    NothingLeftIff(r, b.spooled, rings);
    AllTakenMeansNoneRefused(r, Readable(b.spooled, rings), 0);
    BehindInARow(b, r, |Readable(b.spooled, rings)|, rings, now);
  }

  lemma BehindInARow(b: Box, r: Runner, n: nat, rings: Rings, now: int)
    ensures SafeBehind(b, r, Course(n, []), rings, now) <==>
            TakesAll(r, Released(b, []) + Loads(Fresh(b.buffer, now - INBOUND_TTL_MS)), n)
  {
    var pending := Loads(Fresh(b.buffer, now - INBOUND_TTL_MS));
    PassInARow(r, n + |Released(b, [])|, pending, rings);
    TakesAllOfAppend(r, Released(b, []), pending, n);
  }

  /** When it turns some of it down, that means: every fresh message of the buffer passes behind that push. */
  lemma SafeWhenStuck(b: Box, r: Runner, rings: Rings, now: int)
    requires !TakesAll(r, Readable(b.spooled, rings), 0)
    ensures SafeFlushToRunner(b, r, rings, now) <==>
            ReachedOpen(r, b.spooled, rings) &&
            AllPass(r, Course(FirstRefused(r, Readable(b.spooled, rings), 0) + 1, RestOf(r, b.spooled, rings)),
                    Loads(Fresh(b.buffer, now - INBOUND_TTL_MS)), rings)
  {
    RetriedFirst(r, b.spooled, rings);
    NothingLeftIff(r, b.spooled, rings);
    AllTakenMeansNoneRefused(r, Readable(b.spooled, rings), 0);
    BehindStuck(b, r, Retried(r, Course(0, b.spooled), rings), rings, now);
  }

  lemma BehindStuck(b: Box, r: Runner, at: Course, rings: Rings, now: int)
    requires at.rest != []
    ensures SafeBehind(b, r, at, rings, now) <==> AllPass(r, at, Loads(Fresh(b.buffer, now - INBOUND_TTL_MS)), rings)
  {
    assert Course(at.n + |Released(b, at.rest)|, at.rest) == at;
  }

  /** A flush loses nothing exactly on these states. */
  lemma FlushLoses(b: Box, rings: Rings, now: int)
    requires WellKept(b)
    ensures Lossless(b, Flush(b, rings, now).box, [], Loads(Stale(b.buffer, now - INBOUND_TTL_MS))) <==>
            SafeFlush(b, rings, now)
  {
    forall m: Msg ensures Balanced(b, Flush(b, rings, now), m) {
      FlushBalances(b, rings, now, m);
    }
    var stale := Loads(Stale(b.buffer, now - INBOUND_TTL_MS));
    if b.paused {
      PausedFlushAccounts(b, rings, now);
      AccountsFor(b, Flush(b, rings, now), stale, SafeFlush(b, rings, now));
    } else if b.draining {
      DrainFlushLoses(b, rings, now);
    } else if b.runner.None? {
      FlushWithoutRunner(b, rings, now);
      AccountsFor(b, Flush(b, rings, now), stale, SafeFlush(b, rings, now));
    } else {
      FlushToRunnerAccounts(b, rings, now);
      AccountsFor(b, Flush(b, rings, now), stale, SafeFlush(b, rings, now));
    }
  }

  /* ---------- every operation ---------- */

  /** The states on which an operation loses nothing. */
  ghost predicate Safe(b: Box, op: Op, env: Env) {
    match op
    case DoSend(m, now) => SafeSend(b, m, now, env.digest)
    case DoQueueDeliver(m, now) => SafeDeliver(b, m, env.rings)
    case DoPause(now) => b.paused || Fits(b.pauseHeld, |QueueOf(b)|)
    case DoResume => b.paused ==> SafeRelease(b.(paused := false))
    case DoFlush(now) => SafeFlush(b, env.rings, now)
    case DoStop(now) => InFlightOf(b) == [] && SafeRetain(b, FromStop, now, env.digest)
    case DoSpawn(_, _, _, now) => InFlightOf(b) == [] && SafeRetain(b, Replace, now, env.digest)
    case DoReconnect(paused, now) => SafeReconnect(b, paused)
    case DoSpawnDone(now) => SafeFlush(Started(b), env.rings, now)
    case DoQueueChanged(now) => SafeRetry(b, env.rings)
    case DoRemove(id) => true
    case DoStartDrain(now) => NoSecondCopy(b.drainHeld, Stamp(QueueOf(b), now))
    case DoHoldInFlight(now) => SafeHold(b)
    case DoForget => true
    case RunnerRetains(source, now) => SafeRetain(b, source, now, env.digest)
    case RunnerStarts => true
    case RunnerFinishes => true
    case RunnerExits => QueueOf(b) + InFlightOf(b) == []
    case RunnerChanges(_, _, _) => true
    case RetainedExpires(now) => true
    case BufferExpires(now) => true
  }

  predicate ReadsSpool(op: Op) {
    op.DoFlush? || op.DoSpawnDone? || op.DoQueueChanged? || op.DoQueueDeliver?
  }

  ghost predicate StepAccounts(b: Box, op: Op, env: Env) {
    Accounts(Step(b, op, env), LetGo(b, op), Safe(b, op, env)) && Step(b, op, env).entered == Arrivals(b, op, env)
  }

  lemma PauseAccounts(b: Box, now: int, env: Env)
    ensures StepAccounts(b, DoPause(now), env)
  {
    if b.paused {
      PlainAccounts(Quiet(b), true);
    } else {
      TakeToPauseAccounts(b.(paused := true), now);
    }
  }

  lemma ResumeAccounts(b: Box, env: Env)
    ensures StepAccounts(b, DoResume, env)
  {
    LiberarLoses(b.(paused := false));
    PlainAccounts(Resume(b), Safe(b, DoResume, env));
  }

  lemma HostOpAccounts(b: Box, op: Op, env: Env)
    requires WellKept(b)
    requires op.DoSend? || op.DoPause? || op.DoResume? || op.DoReconnect? || op.DoRemove? ||
             op.DoForget?
    ensures StepAccounts(b, op, env)
  {
    match op
    case DoSend(m, now) => SendAccounts(b, m, now, env.digest);
    case DoPause(now) => PauseAccounts(b, now, env);
    case DoResume => ResumeAccounts(b, env);
    case DoReconnect(paused, now) => ReconnectAccounts(b, paused, now);
    case DoRemove(id) => RemoveAccounts(b, id);
    case DoForget => ForgetAccounts(b);
  }

  lemma StopStepAccounts(b: Box, op: Op, env: Env)
    requires WellKept(b) && op.DoStop?
    ensures StepAccounts(b, op, env)
  {
    StopAccounts(b, op.now, env.digest);
  }

  lemma SpawnStepAccounts(b: Box, op: Op, env: Env)
    requires WellKept(b) && op.DoSpawn?
    ensures StepAccounts(b, op, env)
  {
    SpawnAccounts(b, op.paused, op.runner, op.project, op.now, env.digest);
  }

  lemma RetainStepAccounts(b: Box, op: Op, env: Env)
    requires WellKept(b) && op.RunnerRetains?
    ensures StepAccounts(b, op, env)
  {
    RetainQueueAccounts(b, op.source, op.now, env.digest);
  }

  lemma DrainStepAccounts(b: Box, op: Op, env: Env)
    requires op.DoStartDrain? || op.DoHoldInFlight?
    ensures StepAccounts(b, op, env)
  {
    StartDrainAccounts(b, op.now);
    HoldInFlightAccounts(b, op.now);
  }

  lemma RunnerOpAccounts(b: Box, op: Op, env: Env)
    requires WellKept(b)
    requires op.DoStop? || op.DoSpawn? || op.DoStartDrain? || op.DoHoldInFlight? || op.RunnerRetains?
    ensures StepAccounts(b, op, env)
  {
    if op.DoStop? {
      StopStepAccounts(b, op, env);
    } else if op.DoSpawn? {
      SpawnStepAccounts(b, op, env);
    } else if op.RunnerRetains? {
      RetainStepAccounts(b, op, env);
    } else {
      DrainStepAccounts(b, op, env);
    }
  }

  lemma EnvironmentAccounts(b: Box, op: Op, env: Env)
    requires op.RunnerStarts? || op.RunnerFinishes? || op.RunnerExits? || op.RunnerChanges? || op.RetainedExpires? ||
             op.BufferExpires?
    ensures StepAccounts(b, op, env)
  {
    if op.RunnerStarts? || op.RunnerFinishes? {
      TurnAccounts(b);
    } else if op.RunnerExits? {
      ExitAccounts(b);
    } else if op.RunnerChanges? {
      ChangeAccounts(b, op.accepts, op.blocked, op.tells);
    } else {
      ExpiryAccounts(b, op.now);
    }
  }

  lemma OtherOpAccounts(b: Box, op: Op, env: Env)
    requires WellKept(b) && !ReadsSpool(op)
    ensures StepAccounts(b, op, env)
  {
    if op.DoSend? || op.DoPause? || op.DoResume? || op.DoReconnect? || op.DoRemove? ||
        op.DoForget? {
      HostOpAccounts(b, op, env);
    } else if op.DoStop? || op.DoSpawn? || op.DoStartDrain? || op.DoHoldInFlight? || op.RunnerRetains? {
      RunnerOpAccounts(b, op, env);
    } else {
      EnvironmentAccounts(b, op, env);
    }
  }

  lemma SpawnDoneLoses(b: Box, rings: Rings, now: int)
    requires WellKept(b)
    ensures Lossless(b, SpawnDone(b, rings, now).box, [], Loads(Stale(b.buffer, now - INBOUND_TTL_MS))) <==>
            SafeFlush(Started(b), rings, now)
  {
    FlushLoses(Started(b), rings, now);
    assert forall m: Msg :: Held(b, m) == Held(Started(b), m);
  }

  lemma SameLaw(b: Box, op: Op, env: Env, c: Box, letGo: seq<Msg>, safe: bool)
    requires Step(b, op, env).box == c && Arrivals(b, op, env) == [] && LetGo(b, op) == letGo
    requires Safe(b, op, env) == safe && (Lossless(b, c, [], letGo) <==> safe)
    ensures NothingLost(b, op, env) <==> Safe(b, op, env)
  {
  }

  lemma FlushLetsGo(b: Box, op: Op, env: Env, now: int, letGo: seq<Msg>)
    requires (op == DoFlush(now) || op == DoSpawnDone(now)) && letGo == Loads(Stale(b.buffer, now - INBOUND_TTL_MS))
    ensures Arrivals(b, op, env) == [] && LetGo(b, op) == letGo
  {
  }

  lemma RetryLetsGo(b: Box, op: Op, env: Env, now: int, letGo: seq<Msg>)
    requires op == DoQueueChanged(now) && letGo == []
    ensures Arrivals(b, op, env) == [] && LetGo(b, op) == letGo
  {
  }

  lemma FlushLosesIff(b: Box, op: Op, env: Env, now: int)
    requires WellKept(b) && op == DoFlush(now)
    ensures NothingLost(b, op, env) <==> Safe(b, op, env)
  {
    var c, letGo, safe := FlushStep(b, op, env, now);
    FlushLetsGo(b, op, env, now, letGo);
    SameLaw(b, op, env, c, letGo, safe);
  }

  lemma FlushStep(b: Box, op: Op, env: Env, now: int) returns (c: Box, letGo: seq<Msg>, safe: bool)
    requires WellKept(b) && op == DoFlush(now)
    ensures Step(b, op, env).box == c && Safe(b, op, env) == safe
    ensures letGo == Loads(Stale(b.buffer, now - INBOUND_TTL_MS))
    ensures Lossless(b, c, [], letGo) <==> safe
  {
    c, letGo := Flush(b, env.rings, now).box, Loads(Stale(b.buffer, now - INBOUND_TTL_MS));
    safe := SafeFlush(b, env.rings, now);
    FlushIsStep(b, op, env, now, c, safe);
    FlushLoses(b, env.rings, now);
  }

  lemma FlushIsStep(b: Box, op: Op, env: Env, now: int, c: Box, safe: bool)
    requires op == DoFlush(now) && c == Flush(b, env.rings, now).box && safe == SafeFlush(b, env.rings, now)
    ensures Step(b, op, env).box == c && Safe(b, op, env) == safe
  {
  }

  lemma SpawnDoneLosesIff(b: Box, op: Op, env: Env, now: int)
    requires WellKept(b) && op == DoSpawnDone(now)
    ensures NothingLost(b, op, env) <==> Safe(b, op, env)
  {
    var c, letGo, safe := SpawnDoneStep(b, op, env, now);
    FlushLetsGo(b, op, env, now, letGo);
    SameLaw(b, op, env, c, letGo, safe);
  }

  lemma SpawnDoneStep(b: Box, op: Op, env: Env, now: int) returns (c: Box, letGo: seq<Msg>, safe: bool)
    requires WellKept(b) && op == DoSpawnDone(now)
    ensures Step(b, op, env).box == c && Safe(b, op, env) == safe
    ensures letGo == Loads(Stale(b.buffer, now - INBOUND_TTL_MS))
    ensures Lossless(b, c, [], letGo) <==> safe
  {
    c, letGo := SpawnDone(b, env.rings, now).box, Loads(Stale(b.buffer, now - INBOUND_TTL_MS));
    safe := SafeFlush(Started(b), env.rings, now);
    SpawnDoneIsStep(b, op, env, now, c, safe);
    SpawnDoneLoses(b, env.rings, now);
  }

  lemma SpawnDoneIsStep(b: Box, op: Op, env: Env, now: int, c: Box, safe: bool)
    requires op == DoSpawnDone(now) && c == SpawnDone(b, env.rings, now).box
    requires safe == SafeFlush(Started(b), env.rings, now)
    ensures Step(b, op, env).box == c && Safe(b, op, env) == safe
  {
  }

  lemma RetryLosesIff(b: Box, op: Op, env: Env, now: int)
    requires WellKept(b) && op == DoQueueChanged(now)
    ensures NothingLost(b, op, env) <==> Safe(b, op, env)
  {
    var c, letGo, safe := RetryStep(b, op, env, now);
    RetryLetsGo(b, op, env, now, letGo);
    SameLaw(b, op, env, c, letGo, safe);
  }

  lemma RetryStep(b: Box, op: Op, env: Env, now: int) returns (c: Box, letGo: seq<Msg>, safe: bool)
    requires WellKept(b) && op == DoQueueChanged(now)
    ensures Step(b, op, env).box == c && Safe(b, op, env) == safe && letGo == []
    ensures Lossless(b, c, [], letGo) <==> safe
  {
    c, letGo, safe := QueueChanged(b, env.rings, now).box, [], SafeRetry(b, env.rings);
    RetryIsStep(b, op, env, now, c, safe);
    RetryLoses(b, env.rings, now);
  }

  lemma RetryIsStep(b: Box, op: Op, env: Env, now: int, c: Box, safe: bool)
    requires op == DoQueueChanged(now) && c == QueueChanged(b, env.rings, now).box && safe == SafeRetry(b, env.rings)
    ensures Step(b, op, env).box == c && Safe(b, op, env) == safe
  {
  }

  lemma DeliverLosesIff(b: Box, op: Op, env: Env)
    requires WellKept(b) && op.DoQueueDeliver?
    ensures NothingLost(b, op, env) <==> Safe(b, op, env)
  {
    DeliverLoses(b, op.m, env.rings, op.now);
  }

  lemma OtherLosesIff(b: Box, op: Op, env: Env)
    requires WellKept(b) && !ReadsSpool(op)
    ensures NothingLost(b, op, env) <==> Safe(b, op, env)
  {
    OtherOpAccounts(b, op, env);
    forall m: Msg ensures Balanced(b, Step(b, op, env), m) {
      StepBalances(b, op, env, m);
    }
    AccountsFor(b, Step(b, op, env), LetGo(b, op), Safe(b, op, env));
  }

  /**
   * Losses, exactly: an operation leaves every message, held or arriving, as many copies as it had, less
   * what it is meant to let go, if and only if the state before it is `Safe`. This is every way to lose a
   * message: no branch of the code is trusted to name its own losses.
   */
  lemma LosesNothingIff(b: Box, op: Op, env: Env)
    requires WellKept(b)
    ensures NothingLost(b, op, env) <==> Safe(b, op, env)
  {
    if op.DoFlush? {
      FlushLosesIff(b, op, env, op.now);
    } else if op.DoSpawnDone? {
      SpawnDoneLosesIff(b, op, env, op.now);
    } else if op.DoQueueChanged? {
      RetryLosesIff(b, op, env, op.now);
    } else if op.DoQueueDeliver? {
      DeliverLosesIff(b, op, env);
    } else {
      OtherLosesIff(b, op, env);
    }
  }

  /* ---------- whole runs ---------- */

  function RunArrivals(b: Box, ops: seq<Op>, env: Env): seq<Msg> {
    if ops == [] then []
    else
      var init, last := ops[..|ops| - 1], ops[|ops| - 1];
      RunArrivals(b, init, env) + Arrivals(RunOps(b, init, env).box, last, env)
  }

  function RunLetGo(b: Box, ops: seq<Op>, env: Env): seq<Msg> {
    if ops == [] then []
    else
      var init, last := ops[..|ops| - 1], ops[|ops| - 1];
      RunLetGo(b, init, env) + LetGo(RunOps(b, init, env).box, last)
  }

  ghost predicate SafeRun(b: Box, ops: seq<Op>, env: Env) {
    ops == [] ||
    var init, last := ops[..|ops| - 1], ops[|ops| - 1];
    SafeRun(b, init, env) && Safe(RunOps(b, init, env).box, last, env)
  }

  lemma LosslessThen(b: Box, c: Box, d: Box, a1: seq<Msg>, e1: seq<Msg>, a2: seq<Msg>, e2: seq<Msg>)
    requires Lossless(b, c, a1, e1) && Lossless(c, d, a2, e2)
    ensures Lossless(b, d, a1 + a2, e1 + e2)
  {
    forall m: Msg ensures Held(b, m) + Count(a1 + a2, m) <= Held(d, m) + Count(e1 + e2, m) {
      CountOfAppend(a1, a2, m);
      CountOfAppend(e1, e2, m);
      assert Held(b, m) + Count(a1, m) <= Held(c, m) + Count(e1, m);
      assert Held(c, m) + Count(a2, m) <= Held(d, m) + Count(e2, m);
    }
  }

  /** A run whose every operation finds a safe state ends with everything it held and took in, less what it let go. */
  lemma {:induction false} SafeRunLosesNothing(b: Box, ops: seq<Op>, env: Env)
    requires WellKept(b) && SafeRun(b, ops, env)
    ensures Lossless(b, RunOps(b, ops, env).box, RunArrivals(b, ops, env), RunLetGo(b, ops, env))
  {
    if ops != [] {
      var init, last := ops[..|ops| - 1], ops[|ops| - 1];
      var c := RunOps(b, init, env).box;
      SafeRunLosesNothing(b, init, env);
      EveryRunBalances(b, init, env, Msg("", None, false));
      LosesNothingIff(c, last, env);
      LosslessThen(b, c, Step(c, last, env).box, RunArrivals(b, init, env), RunLetGo(b, init, env),
                   Arrivals(c, last, env), LetGo(c, last));
    }
  }
}
