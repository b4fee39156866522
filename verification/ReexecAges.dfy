/**
 * How long a message may wait for the next process, told from the place where the old one held it: what waited
 * in a pause or in the retained queue has days, what the drain or the buffer held has an hour.
 */
module ReexecAges {
  import opened Common
  import opened Messages
  import opened InboundDedup
  import opened QueueRetained
  import opened Custody
  import opened CustodyLaws
  import opened CustodyControl
  import opened Reexec

  /** The places a handover collects from, in its order. */
  datatype Place = InDrain | InRetained | InBuffer | InPause

  /** What stands there: of the buffer, what is fresh, if the agent is listed; the retained queue if it has an entry. */
  function ItemsAt(b: Box, now: int, place: Place): seq<Item> {
    match place
    case InDrain => b.drainHeld
    case InRetained => if b.known then b.retained else []
    case InBuffer => if b.listed then Fresh(b.buffer, now - INBOUND_TTL_MS) else []
    case InPause => b.pauseHeld
  }

  predicate Earlier(p: Place, q: Place) {
    match q
    case InDrain => false
    case InRetained => p.InDrain?
    case InBuffer => p.InDrain? || p.InRetained?
    case InPause => !p.InPause?
  }

  /** No copy that is collected earlier covers this one; the drain queue itself is taken as it is. */
  ghost predicate Uncovered(b: Box, now: int, place: Place, i: nat)
    requires i < |ItemsAt(b, now, place)|
  {
    var id := ItemsAt(b, now, place)[i].msg.id;
    place.InDrain? || !HasId(id) ||
    ((forall p :: Earlier(p, place) ==> !CarriesId(ItemsAt(b, now, p), id)) &&
     !CarriesId(ItemsAt(b, now, place)[..i], id))
  }

  /** How long it may wait, in milliseconds: seven days, or one hour, unless it was marked before. */
  function Patience(place: Place, item: Item): int {
    if place.InPause? || place.InRetained? || item.pausa || item.retido then 7 * 24 * 60 * 60 * 1000
    else 60 * 60 * 1000
  }

  /* ---------- what is collected ---------- */

  lemma {:induction false} HeldStays(held: seq<Item>, items: seq<Item>, x: Item)
    requires x in held
    ensures x in HoldAllForDrain(held, items)
  {
    if items != [] {
      HeldStays(held, items[..|items| - 1], x);
    }
  }

  /** Of the items with one id the first is held, and every one without an id. */
  lemma {:induction false} FirstIsHeld(held: seq<Item>, items: seq<Item>, n: nat)
    requires n < |items|
    requires HasId(items[n].msg.id) ==> !CarriesId(held, items[n].msg.id) && !CarriesId(items[..n], items[n].msg.id)
    ensures items[n] in HoldAllForDrain(held, items)
  {
    var last := |items| - 1;
    var init := items[..last];
    if n < last {
      assert init[..n] == items[..n];
      FirstIsHeld(held, init, n);
    } else if HasId(items[n].msg.id) {
      HoldingKeepsIds(held, init, items[n].msg.id.value);
    }
  }

  /** The copy that a handover collects of an item at a place. */
  function Taken(place: Place, x: Item): Item {
    match place
    case InDrain => x
    case InRetained => AsRetido([x])[0]
    case InBuffer => x
    case InPause => AsPausa([x])[0]
  }

  /** How many of the incoming items come from the places before this one. */
  function Offset(b: Box, now: int, place: Place): nat {
    match place
    case InDrain => 0
    case InRetained => 0
    case InBuffer => |RetainedToSpool(b)|
    case InPause => |RetainedToSpool(b) + BufferToSpool(b, now)|
  }

  lemma IncomingAt(b: Box, now: int, place: Place, i: nat)
    requires !place.InDrain? && i < |ItemsAt(b, now, place)|
    ensures Offset(b, now, place) + i < |Incoming(b, now)|
    ensures Incoming(b, now)[Offset(b, now, place) + i] == Taken(place, ItemsAt(b, now, place)[i])
  {
  }

  lemma EarlierAreDisjoint(b: Box, now: int, place: Place, i: nat, id: Option<string>)
    requires !place.InDrain? && i < |ItemsAt(b, now, place)|
    requires forall p :: Earlier(p, place) ==> !CarriesId(ItemsAt(b, now, p), id)
    requires !CarriesId(ItemsAt(b, now, place)[..i], id)
    ensures !CarriesId(b.drainHeld, id) && !CarriesId(Incoming(b, now)[..Offset(b, now, place) + i], id)
  {
    assert Earlier(InDrain, place) && ItemsAt(b, now, InDrain) == b.drainHeld;
    var before := Incoming(b, now)[..Offset(b, now, place) + i];
    forall k | 0 <= k < |before| ensures before[k].msg.id != id {
      var p, j := Origin(b, now, place, i, k);
      assert ItemsAt(b, now, p)[j].msg.id == before[k].msg.id;
      if p == place {
        assert ItemsAt(b, now, place)[..i][j].msg.id != id;
      }
    }
  }

  /** Where the k-th incoming item came from, when it stands before item `i` of a place. */
  lemma Origin(b: Box, now: int, place: Place, i: nat, k: nat) returns (p: Place, j: nat)
    requires !place.InDrain? && i < |ItemsAt(b, now, place)| && k < Offset(b, now, place) + i
    ensures (Earlier(p, place) && j < |ItemsAt(b, now, p)|) || (p == place && j < i)
    ensures k < |Incoming(b, now)| && Incoming(b, now)[k].msg == ItemsAt(b, now, p)[j].msg
  {
    IncomingAt(b, now, place, i);
    var x, y := |RetainedToSpool(b)|, |RetainedToSpool(b) + BufferToSpool(b, now)|;
    if k < x {
      p, j := InRetained, k;
    } else if k < y {
      p, j := InBuffer, k - x;
    } else {
      p, j := InPause, k - y;
    }
    IncomingAt(b, now, p, j);
  }

  lemma UncoveredIsCollected(b: Box, now: int, place: Place, i: nat)
    requires i < |ItemsAt(b, now, place)| && Uncovered(b, now, place, i)
    ensures Taken(place, ItemsAt(b, now, place)[i]) in Collected(b, now)
  {
    var x := ItemsAt(b, now, place)[i];
    if place.InDrain? {
      HeldStays(b.drainHeld, Incoming(b, now), x);
    } else {
      var n := Offset(b, now, place) + i;
      IncomingAt(b, now, place, i);
      if HasId(x.msg.id) {
        EarlierAreDisjoint(b, now, place, i, x.msg.id);
      }
      FirstIsHeld(b.drainHeld, Incoming(b, now), n);
    }
  }

  /* ---------- what waits ---------- */

  lemma {:induction false} SealedIsRecord(items: seq<Item>, x: Item, project: Option<string>, rings: Rings)
    requires KeyReady(project, rings) && x in items
    ensures Seal(x, project, rings).Some? && Seal(x, project, rings).value in SealAll(items, project, rings)
  {
    var last := |items| - 1;
    SealOne(items[last], project, rings);
    if x in items[..last] {
      SealedIsRecord(items[..last], x, project, rings);
    }
  }

  lemma {:induction false} WaitingIff(rs: seq<Record>, now: int, r: Record)
    ensures r in Waiting(rs, now) <==> r in rs && SealedFormat(r) && !Outlived(r, now)
  {
    if rs != [] {
      var last := |rs| - 1;
      WaitingIff(rs[..last], now, r);
      assert rs == rs[..last] + [rs[last]];
    }
  }

  /**
   * With the key at hand, every message held in any place and covered by no earlier copy has a record, with its
   * text, id, sender and age; and this record waits for the agent's next spawn exactly as long as the place where
   * the message was held lets it.
   */
  lemma PlaceDecidesTheWait(b: Box, now: int, rings: Rings, place: Place, i: nat, boot: int) returns (r: Record)
    requires KeyReady(b.project, rings) && i < |ItemsAt(b, now, place)| && Uncovered(b, now, place, i)
    ensures r in Records(b, now, rings)
    ensures var x := ItemsAt(b, now, place)[i];
            RecordMsg(r) == x.msg && r.at == x.at &&
            (r in Waiting(Records(b, now, rings), boot) <==> boot - x.at <= Patience(place, x))
  {
    var x := ItemsAt(b, now, place)[i];
    var taken := Taken(place, x);
    UncoveredIsCollected(b, now, place, i);
    SealedIsRecord(Collected(b, now), taken, b.project, rings);
    SealOne(taken, b.project, rings);
    r := Seal(taken, b.project, rings).value;
    WaitingIff(Records(b, now, rings), boot, r);
  }

  /** In the next process it stands in the agent's spool after the boot exactly as long. */
  lemma WaitsAtBootIff(b: Box, now: int, rings: Rings, place: Place, i: nat, c: Box, file: seq<Filed>, a: string,
                       boot: int, env: Env) returns (r: Record)
    requires KeyReady(b.project, rings) && i < |ItemsAt(b, now, place)| && Uncovered(b, now, place, i)
    requires c.spooled == [] && OfAgent(file, a) == Records(b, now, rings)
    ensures r in OfAgent(file, a)
    ensures var x := ItemsAt(b, now, place)[i];
            RecordMsg(r) == x.msg && r.at == x.at &&
            (r in Boot(c, file, a, boot, env).box.spooled <==> boot - x.at <= Patience(place, x))
  {
    r := PlaceDecidesTheWait(b, now, rings, place, i, boot);
    YoungRecordsWait(c, file, a, boot, env);
    assert [] + Waiting(OfAgent(file, a), boot) == Waiting(OfAgent(file, a), boot);
  }

  /** Behind what is still fresh in the retained queue, with its own age, unless the delivery waits there already. */
  ghost predicate RetainedWithAge(b: Box, o: Outcome, m: Msg, at: int, now: int, digest: Digest) {
    var live, item := Vivos(b.retained, now), Item(m, if at == 0 then now else at, InboundTtl, false, false);
    o.pushed == [] && o.box == b.(retained := o.box.retained) &&
    o.box.retained == if HasDelivery(live, item, digest) then live else LastN(live + [item], 200)
  }

  lemma OverdueIsRetained(b: Box, r: Record, a: string, now: int, env: Env, m: Msg)
    requires SealedFormat(r) && Outlived(r, now) && ReadRecord(r, env.rings) == Some(m)
    ensures RetainedWithAge(b, LoadOne(b, Filed(a, r), a, now, env), m, r.at, now, env.digest)
  {
    OneRetained(Vivos(b.retained, now), Item(m, if r.at == 0 then now else r.at, InboundTtl, false, false), env.digest);
  }

  /**
   * A message that waited longer than its place allows is not delivered by a spawn: if its key crossed over, its
   * line puts it into the retained queue, with its own age, for its owner to decide.
   */
  lemma PatienceRunsOut(b: Box, now: int, rings: Rings, place: Place, i: nat, c: Box, a: string, boot: int, env: Env)
    returns (r: Record)
    requires KeyReady(b.project, rings) && i < |ItemsAt(b, now, place)| && Uncovered(b, now, place, i)
    requires SoundRings(env.rings) && KeyCarriedOver(b.project, rings, env.rings)
    requires var x := ItemsAt(b, now, place)[i]; boot - x.at > Patience(place, x)
    ensures r in Records(b, now, rings)
    ensures var x := ItemsAt(b, now, place)[i];
            RetainedWithAge(c, LoadOne(c, Filed(a, r), a, boot, env), x.msg, x.at, boot, env.digest)
  {
    var x := ItemsAt(b, now, place)[i];
    var taken := Taken(place, x);
    UncoveredIsCollected(b, now, place, i);
    SealedIsRecord(Collected(b, now), taken, b.project, rings);
    SealOne(taken, b.project, rings);
    SealThenRead(taken, b.project, rings, env.rings);
    r := Seal(taken, b.project, rings).value;
    OverdueIsRetained(c, r, a, boot, env, x.msg);
  }
}
