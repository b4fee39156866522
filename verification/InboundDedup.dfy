/**
 * Delivery deduplication and the pre-spawn buffer (src/inbound-dedup.ts).
 * The deduper forgets old ids, so its guarantee is a window law over whole histories.
 */
module InboundDedup {
  import opened Common
  import opened KeyedFifo
  import opened Messages

  const DEFAULT_MAX_SEEN: nat := 500

  function SelfKey(id: string): string {
    id
  }

  /** The ids remembered after the calls `history`, oldest first. */
  function Window(history: seq<string>, maxSeen: nat): seq<string> {
    Run([], history, maxSeen, SelfKey)
  }

  lemma KeysAreIds(ids: seq<string>)
    ensures Keys(ids, SelfKey) == ids
  {
    var key := SelfKey;
    assert forall i :: 0 <= i < |ids| ==> Keys(ids, key)[i] == key(ids[i]);
    assert forall i :: 0 <= i < |ids| ==> key(ids[i]) == ids[i];
  }

  /** The id of call `k` is news: the deduper does not remember it when the call arrives. */
  predicate Accepted(history: seq<string>, k: nat, maxSeen: nat)
    requires k < |history|
  {
    history[k] !in Window(history[..k], maxSeen)
  }

  /** The accepted ids of a history, in order. */
  function AcceptedIds(history: seq<string>, maxSeen: nat): seq<string> {
    Entered([], history, maxSeen, SelfKey)
  }

  /** An id is remembered exactly while it is among the newest `maxSeen` accepted ones. */
  lemma RemembersNewestAccepted(history: seq<string>, maxSeen: nat)
    ensures Window(history, maxSeen) == LastN(AcceptedIds(history, maxSeen), maxSeen)
    ensures Distinct(Window(history, maxSeen)) && |Window(history, maxSeen)| <= maxSeen
  {
    RunIsNewestEntered([], history, maxSeen, SelfKey);
    assert [] + AcceptedIds(history, maxSeen) == AcceptedIds(history, maxSeen);
    RunWellFormed([], history, maxSeen, SelfKey);
    KeysAreIds(Window(history, maxSeen));
  }

  /** Between two acceptances of one id, at least `maxSeen` other distinct ids were accepted. */
  lemma SecondAcceptanceNeedsFullWindow(history: seq<string>, i: nat, j: nat, maxSeen: nat)
    requires i < j < |history| && history[i] == history[j]
    requires Accepted(history, i, maxSeen) && Accepted(history, j, maxSeen)
    ensures |set k | i < k < j && Accepted(history, k, maxSeen) && history[k] != history[i] :: history[k]| >= maxSeen
  {
    forall k | 0 <= k < |history|
      ensures Accepted(history, k, maxSeen) <==> Enters([], history, k, maxSeen, SelfKey)
    {
      KeysAreIds(Window(history[..k], maxSeen));
    }
    ReentryNeedsCapOthers([], history, i, j, maxSeen, SelfKey);
    assert KeysBetween([], history, i, j, maxSeen, SelfKey) - {history[i]}
        == set k | i < k < j && Accepted(history, k, maxSeen) && history[k] != history[i] :: history[k];
  }

  /** Marking a saved snapshot in a fresh deduper of the same size restores it exactly. */
  lemma SnapshotReplays(ids: seq<string>, maxSeen: nat)
    requires Distinct(ids) && |ids| <= maxSeen
    ensures Window(ids, maxSeen) == ids
  {
    KeysAreIds(ids);
    ReplayRebuilds(ids, maxSeen, SelfKey);
  }

  /** One more call: a known id changes nothing, a new one pushes out the oldest when full. */
  lemma WindowStep(history: seq<string>, id: string, maxSeen: nat)
    ensures var w := Window(history, maxSeen);
            Window(history + [id], maxSeen) == if id in w then w else LastN(w + [id], maxSeen)
  {
    KeysAreIds(Window(history, maxSeen));
    assert (history + [id])[..|history|] == history;
    var key := SelfKey;
    assert key(id) == id;
  }

  class DeliveryDeduper {
    const maxSeen: nat
    var seen: set<string>
    var order: seq<string>
    /** Every non-empty id marked since creation or the last clear. */
    ghost var history: seq<string>

    ghost predicate Valid()
      reads this
    {
      && order == Window(history, maxSeen)
      && seen == ToSet(order)
      && "" !in seen
      && "" !in history
    }

    constructor (maxSeen: nat)
      ensures Valid() && this.maxSeen == maxSeen && history == []
    {
      this.maxSeen := maxSeen;
      seen, order, history := {}, [], [];
    }

    method IsSeen(id: Option<string>) returns (b: bool)
      requires Valid()
      ensures b <==> HasId(id) && id.value in LastN(AcceptedIds(history, maxSeen), maxSeen)
    {
      RemembersNewestAccepted(history, maxSeen);
      b := HasId(id) && id.value in seen;
    }

    method MarkSeen(id: Option<string>)
      requires Valid()
      modifies this
      ensures Valid()
      ensures history == if HasId(id) then old(history) + [id.value] else old(history)
    {
      if !HasId(id) {
        return;
      }
      var news := id.value;
      ghost var before, held := history, order;
      history := history + [news];
      RemembersNewestAccepted(before, maxSeen);
      WindowStep(before, news, maxSeen);
      if news in seen {
        return;
      }
      seen := seen + {news};
      order := order + [news];
      ghost var all := order;
      assert Distinct(all);
      while |order| > maxSeen
        invariant |order| >= maxSeen || order == all
        invariant |order| <= |all| && order == all[|all| - |order|..]
        invariant seen == ToSet(order) && "" !in seen
        invariant history == before + [news]
      {
        var oldest := order[0];
        HeadOfDistinct(all, |all| - |order|);
        order := order[1..];
        if oldest != "" {
          seen := seen - {oldest};
        }
      }
    }

    method Accept(id: Option<string>) returns (process: bool)
      requires Valid()
      modifies this
      ensures Valid()
      ensures process <==> !HasId(id) || id.value !in LastN(AcceptedIds(old(history), maxSeen), maxSeen)
      ensures history == if HasId(id) && process then old(history) + [id.value] else old(history)
    {
      RemembersNewestAccepted(history, maxSeen);
      if !HasId(id) {
        return true;
      }
      if id.value in seen {
        return false;
      }
      MarkSeen(id);
      return true;
    }

    method Clear()
      requires Valid()
      modifies this
      ensures Valid() && history == []
    {
      seen, order, history := {}, [], [];
    }

    method Snapshot() returns (ids: seq<string>)
      requires Valid()
      ensures ids == LastN(AcceptedIds(history, maxSeen), maxSeen)
      ensures Distinct(ids) && |ids| <= maxSeen && "" !in ids
    {
      RemembersNewestAccepted(history, maxSeen);
      ids := order;
    }
  }

  /** Dropping the head of a suffix drops exactly one id from its set. */
  lemma HeadOfDistinct(s: seq<string>, i: nat)
    requires Distinct(s) && i < |s|
    ensures ToSet(s[i..][1..]) == ToSet(s[i..]) - {s[i..][0]}
  {
    var t := s[i..];
    assert t == [t[0]] + t[1..];
    forall k | 1 <= k < |t| ensures t[k] != t[0] {
      assert s[i + k] != s[i];
    }
  }

  /** The file of ids seen by the previous process; a failed or missing read is `None`. */
  datatype SeenFile = SeenFile(savedAt: int, ids: seq<string>)

  const DELIVERY_SEEN_TTL_MS: int := 15 * 60_000

  function NonEmptyIds(ids: seq<string>): seq<string> {
    if ids == [] then []
    else if ids[0] != "" then [ids[0]] + NonEmptyIds(ids[1..])
    else NonEmptyIds(ids[1..])
  }

  function LoadDeliverySeen(file: Option<SeenFile>, now: int): seq<string> {
    match file
    case None => []
    case Some(f) => if now - f.savedAt > DELIVERY_SEEN_TTL_MS then [] else NonEmptyIds(f.ids)
  }

  lemma {:induction false} NonEmptyIdsKeepsAll(ids: seq<string>)
    requires "" !in ids
    ensures NonEmptyIds(ids) == ids
  {
    if ids != [] {
      NonEmptyIdsKeepsAll(ids[1..]);
      assert ids == [ids[0]] + ids[1..];
    }
  }

  /* ---------- the buffer that holds messages until a runner exists ---------- */

  const INBOUND_TTL_MS: int := 15 * 60_000

  function StampArrival(item: Item, now: int): Item {
    if item.at != 0 then item else item.(at := now)
  }

  /** The buffer of one agent after a push. */
  function Pushed(list: seq<Item>, item: Item, now: int, ttl: int, max: nat): seq<Item> {
    var live := Fresh(list, now - ttl);
    if HasId(item.msg.id) && CarriesId(live, item.msg.id) then live
    else LastN(live + [StampArrival(item, now)], max)
  }

  /** The arrival is then the newest, and has an age. */
  lemma PushedIsNewest(list: seq<Item>, item: Item, now: int, ttl: int, max: nat)
    requires max > 0 && !(HasId(item.msg.id) && CarriesId(Fresh(list, now - ttl), item.msg.id))
    ensures var after := Pushed(list, item, now, ttl, max);
            after != [] && after[|after| - 1] == item.(at := if item.at == 0 then now else item.at)
  {
    var live, newest := Fresh(list, now - ttl), StampArrival(item, now);
    assert (live + [newest])[|live|] == newest;
  }

  class AgentInboundBuffer {
    const maxPerAgent: nat
    const ttlMs: int
    var byAgent: map<string, seq<Item>>

    constructor (maxPerAgent: nat := 20, ttlMs: int := INBOUND_TTL_MS)
      ensures this.maxPerAgent == maxPerAgent && this.ttlMs == ttlMs && byAgent == map[]
    {
      this.maxPerAgent, this.ttlMs, byAgent := maxPerAgent, ttlMs, map[];
    }

    function Of(agentId: string): seq<Item>
      reads this
    {
      if agentId in byAgent then byAgent[agentId] else []
    }

    method Gc(agentId: string, now: int)
      modifies this
      ensures Of(agentId) == Fresh(old(Of(agentId)), now - ttlMs)
      ensures forall b :: b != agentId ==> Of(b) == old(Of(b))
    {
      if agentId !in byAgent {
        return;
      }
      var next := KeepFresh(byAgent[agentId], now - ttlMs);
      if |next| == 0 {
        byAgent := byAgent - {agentId};
      } else {
        byAgent := byAgent[agentId := next];
      }
    }

    method Push(agentId: string, item: Item, now: int) returns (evicted: nat)
      modifies this
      ensures Of(agentId) == Pushed(old(Of(agentId)), item, now, ttlMs, maxPerAgent)
      ensures var live := Fresh(old(Of(agentId)), now - ttlMs);
              evicted == if HasId(item.msg.id) && CarriesId(live, item.msg.id) then 0
                         else |CutOff(live + [StampArrival(item, now)], maxPerAgent)|
      ensures forall b :: b != agentId ==> Of(b) == old(Of(b))
    {
      Gc(agentId, now);
      var list := Of(agentId);
      if HasId(item.msg.id) && CarriesId(list, item.msg.id) {
        return 0;
      }
      list := list + [StampArrival(item, now)];
      ghost var all := list;
      evicted := 0;
      while |list| > maxPerAgent
        invariant evicted + |list| == |all|
        invariant list == all[evicted..]
        invariant |list| >= maxPerAgent || evicted == 0
      {
        list := list[1..];
        evicted := evicted + 1;
      }
      byAgent := byAgent[agentId := list];
    }

    method Drain(agentId: string, now: int) returns (list: seq<Item>)
      modifies this
      ensures list == Fresh(old(Of(agentId)), now - ttlMs) && Of(agentId) == []
      ensures forall b :: b != agentId ==> Of(b) == old(Of(b))
    {
      Gc(agentId, now);
      list := Of(agentId);
      byAgent := byAgent - {agentId};
    }

    method Remove(agentId: string, deliveryId: string) returns (ok: bool)
      modifies this
      ensures var i := FirstWithId(Loads(old(Of(agentId))), deliveryId);
              Of(agentId) == Without(old(Of(agentId)), i) && (ok <==> i < |old(Of(agentId))|)
      ensures forall b :: b != agentId ==> Of(b) == old(Of(b))
    {
      if agentId !in byAgent {
        return false;
      }
      var list := byAgent[agentId];
      var i := FirstWithId(Loads(list), deliveryId);
      if i >= |list| {
        return false;
      }
      list := Without(list, i);
      if |list| == 0 {
        byAgent := byAgent - {agentId};
      } else {
        byAgent := byAgent[agentId := list];
      }
      return true;
    }
  }

  /** JavaScript `filter` on the age of the items. */
  method KeepFresh(items: seq<Item>, cutoff: int) returns (kept: seq<Item>)
    ensures kept == Fresh(items, cutoff)
  {
    kept := [];
    for i := 0 to |items|
      invariant kept == Fresh(items[..i], cutoff)
    {
      assert items[..i + 1][..i] == items[..i];
      if items[i].at >= cutoff {
        kept := kept + [items[i]];
      }
    }
    assert items[..|items|] == items;
  }
}
