/**
 * The handover between two processes (src/agent-host.ts, src/reexec-snapshot.ts, src/main.ts): the
 * old process writes what it holds to a sealed spool and then the ids it has seen; the new one
 * loads both, and the server replays what it sent.
 */
module Reexec {
  import opened Common
  import opened KeyedFifo
  import opened Messages
  import opened InboundDedup
  import opened QueueRetained
  import opened Custody
  import opened CustodyLaws
  import opened CustodyOrder
  import KeyRing

  const SPOOL_TTL_MS: int := 60 * 60_000
  const MAX_SEEN: nat := 500

  /* ---------- what the old process collects ---------- */

  function AsRetido(items: seq<Item>): seq<Item> {
    seq(|items|, i requires 0 <= i < |items| => Item(items[i].msg, items[i].at, NoSource, false, true))
  }

  function AsPausa(items: seq<Item>): seq<Item> {
    seq(|items|, i requires 0 <= i < |items| => items[i].(pausa := true))
  }

  /** The retained items a handover looks at: those of agents that have an entry. */
  function RetainedToSpool(b: Box): seq<Item> {
    if b.known then AsRetido(b.retained) else []
  }

  /** The buffered ones: those of listed agents, if not too old. */
  function BufferToSpool(b: Box, now: int): seq<Item> {
    if b.listed then Fresh(b.buffer, now - INBOUND_TTL_MS) else []
  }

  /** Everything `writeReexecSpool` brings together, in its order. */
  function Incoming(b: Box, now: int): seq<Item> {
    RetainedToSpool(b) + BufferToSpool(b, now) + AsPausa(b.pauseHeld)
  }

  function Collected(b: Box, now: int): seq<Item> {
    HoldAllForDrain(b.drainHeld, Incoming(b, now))
  }

  /** The host's memory once everything is in the drain queue. */
  function Collect(b: Box, now: int): Box {
    b.(drainHeld := Collected(b, now), pauseHeld := [], listed := false, buffer := if b.listed then [] else b.buffer)
  }

  /** The three rounds of collecting, agent by agent. */
  function HoldRetained(b: Box): Box {
    b.(drainHeld := HoldAllForDrain(b.drainHeld, RetainedToSpool(b)))
  }

  function HoldBuffered(b: Box, now: int): Box {
    b.(drainHeld := HoldAllForDrain(b.drainHeld, BufferToSpool(b, now)), listed := false, buffer := if b.listed then []
      else b.buffer)
  }

  function HoldPaused(b: Box): Box {
    b.(drainHeld := HoldAllForDrain(b.drainHeld, AsPausa(b.pauseHeld)), pauseHeld := [])
  }

  lemma CollectIsThreeRounds(b: Box, now: int)
    ensures HoldPaused(HoldBuffered(HoldRetained(b), now)) == Collect(b, now)
  {
    HoldAllSplit(b.drainHeld, RetainedToSpool(b) + BufferToSpool(b, now), AsPausa(b.pauseHeld));
    HoldAllSplit(b.drainHeld, RetainedToSpool(b), BufferToSpool(b, now));
  }

  lemma {:induction false} HoldAllSplit(held: seq<Item>, xs: seq<Item>, ys: seq<Item>)
    ensures HoldAllForDrain(held, xs + ys) == HoldAllForDrain(HoldAllForDrain(held, xs), ys)
  {
    if ys == [] {
      assert xs + ys == xs;
    } else {
      HoldAllSplit(held, xs, ys[..|ys| - 1]);
      assert (xs + ys)[..|xs + ys| - 1] == xs + ys[..|ys| - 1];
    }
  }

  /** Holding drops copies, never ids. */
  lemma {:induction false} HoldingKeepsIds(held: seq<Item>, items: seq<Item>, id: string)
    requires id != ""
    ensures CarriesId(HoldAllForDrain(held, items), Some(id)) <==>
            CarriesId(held, Some(id)) || CarriesId(items, Some(id))
  {
    if items != [] {
      var init, last := items[..|items| - 1], items[|items| - 1];
      HoldingKeepsIds(held, init, id);
      CarriesOfAppend(init, [last], Some(id));
      assert init + [last] == items;
      CarriesOfAppend(HoldAllForDrain(held, init), [last], Some(id));
      assert CarriesId([last], Some(id)) <==> last.msg.id == Some(id) by {
        assert [last][0] == last;
      }
    }
  }

  /* ---------- what it writes ---------- */

  /** A message for the disk: only ever as an `e2e:v2:` blob under the project key. */
  function Seal(item: Item, project: Option<string>, rings: Rings): Option<Record> {
    if !HasId(project) || project.value !in rings then None
    else match KeyRing.EncryptForProject(rings[project.value], KeyRing.Letter(item.msg.content, item.msg.member),
      Some(SpoolAad(project.value)))
      case Some(blob) =>
        if blob.V2? then Some(Record(project.value, item.msg.id, item.at, blob, item.pausa, item.retido)) else None
      case None => None
  }

  function SealAll(items: seq<Item>, project: Option<string>, rings: Rings): seq<Record> {
    if items == [] then []
    else
      var init, last := SealAll(items[..|items| - 1], project, rings), Seal(items[|items| - 1], project, rings);
      if last.Some? then init + [last.value] else init
  }

  /** The items that may not go to the disk. */
  function Lost(items: seq<Item>, project: Option<string>, rings: Rings): seq<Item> {
    if items == [] then []
    else
      var init, last := Lost(items[..|items| - 1], project, rings), items[|items| - 1];
      if Seal(last, project, rings).Some? then init else init + [last]
  }

  /** Whether the project's key can seal. */
  predicate KeyReady(project: Option<string>, rings: Rings) {
    && HasId(project) && project.value in rings
    && rings[project.value].active.Some? && |rings[project.value].active.value| == KeyRing.KEY_BYTES
  }

  lemma SealOne(item: Item, project: Option<string>, rings: Rings)
    ensures Seal(item, project, rings).Some? <==> KeyReady(project, rings)
    ensures KeyReady(project, rings) ==>
              var r := Seal(item, project, rings).value;
              RecordMsg(r) == item.msg && r.id == item.msg.id && r.at == item.at &&
              r.blob == KeyRing.V2(rings[project.value].active.value, SpoolAad(project.value),
                KeyRing.Letter(item.msg.content, item.msg.member))
  {
  }

  /** A batch is sealed as a whole or lost as a whole: it depends on the key alone. */
  lemma {:induction false} SealedOrLost(items: seq<Item>, project: Option<string>, rings: Rings)
    ensures KeyReady(project, rings) ==>
            Lost(items, project, rings) == [] && RecordMsgs(SealAll(items, project, rings)) == Loads(items)
    ensures !KeyReady(project, rings) ==> SealAll(items, project, rings) == [] && Lost(items, project, rings) == items
  {
    if items != [] {
      var init, last := items[..|items| - 1], items[|items| - 1];
      SealedOrLost(init, project, rings);
      SealOne(last, project, rings);
      assert init + [last] == items;
      LoadsOfAppend(init, [last]);
      assert Loads([last]) == [last.msg];
      if KeyReady(project, rings) {
        var r := Seal(last, project, rings).value;
        assert RecordMsgs(SealAll(init, project, rings) + [r]) == RecordMsgs(SealAll(init, project, rings)) +
               [last.msg];
      }
    }
  }

  /** The records of one agent: what was collected, then what an earlier handover left over. */
  function Records(b: Box, now: int, rings: Rings): seq<Record> {
    SealAll(Collected(b, now), b.project, rings) + b.spooled
  }

  function LostOf(b: Box, now: int, rings: Rings): seq<Item> {
    Lost(Collected(b, now), b.project, rings)
  }

  predicate RecordCarries(rs: seq<Record>, id: string) {
    exists i :: 0 <= i < |rs| && rs[i].id == Some(id)
  }

  lemma RecordCarriesAppend(a: seq<Record>, b: seq<Record>, id: string)
    ensures RecordCarries(a + b, id) <==> RecordCarries(a, id) || RecordCarries(b, id)
  {
    if RecordCarries(a, id) {
      var i :| 0 <= i < |a| && a[i].id == Some(id);
      assert (a + b)[i].id == Some(id);
    }
    if RecordCarries(b, id) {
      var i :| 0 <= i < |b| && b[i].id == Some(id);
      assert (a + b)[|a| + i].id == Some(id);
    }
  }

  /** A sealed batch has the ids of its items. */
  lemma SealingKeepsIds(items: seq<Item>, project: Option<string>, rings: Rings, id: string)
    requires KeyReady(project, rings)
    ensures RecordCarries(SealAll(items, project, rings), id) <==> CarriesId(items, Some(id))
  {
    var rs := SealAll(items, project, rings);
    SealedOrLost(items, project, rings);
    assert |rs| == |items| by {
      assert |RecordMsgs(rs)| == |Loads(items)|;
    }
    forall i | 0 <= i < |rs| ensures rs[i].id == items[i].msg.id {
      assert RecordMsgs(rs)[i] == Loads(items)[i];
    }
    if CarriesId(items, Some(id)) {
      var i :| 0 <= i < |items| && items[i].msg.id == Some(id);
      assert rs[i].id == Some(id);
    }
    if RecordCarries(rs, id) {
      var i :| 0 <= i < |rs| && rs[i].id == Some(id);
      assert items[i].msg.id == Some(id);
    }
  }

  /** No plaintext reaches the disk: every record is sealed under the project's key, for the spool alone. */
  lemma {:induction false} OnlySealedReachesDisk(items: seq<Item>, project: Option<string>, rings: Rings, r: Record)
    requires r in SealAll(items, project, rings)
    ensures KeyReady(project, rings) && r.project == project.value
    ensures r.blob.V2? && r.blob.key == rings[project.value].active.value && r.blob.aad == SpoolAad(project.value)
  {
    var init, last := items[..|items| - 1], items[|items| - 1];
    SealOne(last, project, rings);
    if r in SealAll(init, project, rings) {
      OnlySealedReachesDisk(init, project, rings, r);
    } else {
      assert r == Seal(last, project, rings).value;
    }
  }

  /* ---------- no id falls between the spool and the seen list ---------- */

  /** Every place of the old process where an id may be held outside the runner. */
  predicate HeldId(b: Box, now: int, id: string) {
    || CarriesId(b.drainHeld, Some(id)) || CarriesId(b.pauseHeld, Some(id)) ||
      CarriesId(Fresh(b.buffer, now - INBOUND_TTL_MS), Some(id))
    || CarriesId(b.retained, Some(id)) || RecordCarries(b.spooled, id)
  }

  /** What a handover collects: not the buffer of an unlisted agent, nor the retained queue of one without an entry. */
  predicate InMemory(b: Box, now: int, id: string) {
    || CarriesId(b.drainHeld, Some(id)) || CarriesId(b.pauseHeld, Some(id))
    || (b.listed && CarriesId(Fresh(b.buffer, now - INBOUND_TTL_MS), Some(id)))
    || (b.known && CarriesId(b.retained, Some(id)))
  }

  /** The places a handover reaches: what it collects, and what an earlier one left. */
  predicate Reached(b: Box, now: int, id: string) {
    InMemory(b, now, id) || RecordCarries(b.spooled, id)
  }

  lemma CarriesOfCopies(items: seq<Item>, id: Option<string>)
    ensures CarriesId(AsRetido(items), id) <==> CarriesId(items, id)
    ensures CarriesId(AsPausa(items), id) <==> CarriesId(items, id)
  {
    forall i | 0 <= i < |items| ensures AsRetido(items)[i].msg == items[i].msg &&
        AsPausa(items)[i].msg == items[i].msg {
    }
    if CarriesId(items, id) {
      var i :| 0 <= i < |items| && items[i].msg.id == id;
      assert AsRetido(items)[i].msg.id == id && AsPausa(items)[i].msg.id == id;
    }
  }

  lemma CollectedIds(b: Box, now: int, id: string)
    requires id != ""
    ensures CarriesId(Collected(b, now), Some(id)) <==> InMemory(b, now, id)
  {
    HoldingKeepsIds(b.drainHeld, Incoming(b, now), id);
    CarriesOfAppend(RetainedToSpool(b) + BufferToSpool(b, now), AsPausa(b.pauseHeld), Some(id));
    CarriesOfAppend(RetainedToSpool(b), BufferToSpool(b, now), Some(id));
    CarriesOfCopies(b.retained, Some(id));
    CarriesOfCopies(b.pauseHeld, Some(id));
  }

  /** An id is recorded if it was, or is collected and the key can seal it; collected without a key, it is lost. */
  lemma RecordedIff(b: Box, now: int, rings: Rings, id: string)
    requires id != ""
    ensures RecordCarries(Records(b, now, rings), id) <==>
            RecordCarries(b.spooled, id) || (KeyReady(b.project, rings) && InMemory(b, now, id))
    ensures CarriesId(LostOf(b, now, rings), Some(id)) <==> !KeyReady(b.project, rings) && InMemory(b, now, id)
  {
    CollectedIds(b, now, id);
    var held := Collected(b, now);
    SealedOrLost(held, b.project, rings);
    RecordCarriesAppend(SealAll(held, b.project, rings), b.spooled, id);
    if KeyReady(b.project, rings) {
      SealingKeepsIds(held, b.project, rings, id);
    }
  }

  /** Every id reached is a record or declared lost, and nothing else is. */
  lemma RecordedOrLost(b: Box, now: int, rings: Rings, id: string)
    requires id != ""
    ensures RecordCarries(Records(b, now, rings), id) || CarriesId(LostOf(b, now, rings), Some(id)) <==>
            Reached(b, now, id)
  {
    RecordedIff(b, now, rings, id);
  }

  /** The ids saved as seen: the deduper's, without those of the messages that were lost. */
  function SavedSeen(seen: seq<string>, lost: set<string>): seq<string> {
    if seen == [] then []
    else
      var init, last := SavedSeen(seen[..|seen| - 1], lost), seen[|seen| - 1];
      if last in lost then init else init + [last]
  }

  lemma {:induction false} SavedSeenIs(seen: seq<string>, lost: set<string>)
    ensures forall id :: id in SavedSeen(seen, lost) <==> id in seen && id !in lost
    ensures |SavedSeen(seen, lost)| <= |seen|
    ensures Distinct(seen) ==> Distinct(SavedSeen(seen, lost))
  {
    if seen != [] {
      var init, last := seen[..|seen| - 1], seen[|seen| - 1];
      SavedSeenIs(init, lost);
      assert seen == init + [last];
      if Distinct(seen) {
        assert Distinct(init);
        assert last !in init;
      }
    }
  }

  /** Whether the new process turns a replayed delivery away. */
  predicate Suppressed(file: Option<SeenFile>, now: int, id: string) {
    id != "" && id in Window(LoadDeliverySeen(file, now), MAX_SEEN)
  }

  predicate StillCounts(file: SeenFile, now: int) {
    now - file.savedAt <= DELIVERY_SEEN_TTL_MS
  }

  /** A list of seen ids that a commit may have written. */
  ghost predicate ListFits(seen: Option<SeenFile>) {
    seen.Some? ==> Distinct(seen.value.ids) && |seen.value.ids| <= MAX_SEEN && "" !in seen.value.ids
  }

  /** The list turns an id away exactly when it still counts and has the id. */
  predicate ListHas(list: Option<SeenFile>, boot: int, id: string) {
    list.Some? && StillCounts(list.value, boot) && id in list.value.ids
  }

  lemma SuppressedIff(list: Option<SeenFile>, boot: int, id: string)
    requires ListFits(list) && id != ""
    ensures Suppressed(list, boot, id) <==> ListHas(list, boot, id)
  {
    RemembersNewestAccepted([], MAX_SEEN);
    if list.Some? {
      NonEmptyIdsKeepsAll(list.value.ids);
      SnapshotReplays(list.value.ids, MAX_SEEN);
    }
  }

  /** The agent's lines on the file after a commit: if the spool could not be written, what an earlier one left. */
  function FileAfter(b: Box, now: int, rings: Rings, spoolOk: bool): seq<Record> {
    if spoolOk then Records(b, now, rings) else b.spooled
  }

  /** The list on the disk after a commit: if it was not written, the old one. */
  function ListAfter(before: Option<SeenFile>, seen: seq<string>, lost: set<string>, now: int, written: bool)
    : Option<SeenFile>
  {
    if written then Some(SeenFile(now, SavedSeen(seen, lost))) else before
  }

  /** An id is on the file: an earlier handover left it there, or this one wrote it, which takes a key and a write. */
  predicate OnFile(b: Box, now: int, rings: Rings, spoolOk: bool, id: string) {
    RecordCarries(b.spooled, id) || (spoolOk && KeyReady(b.project, rings) && InMemory(b, now, id))
  }

  /** It is turned away: by the new list, unless it was lost, or by the old one, if there is no new one. */
  predicate ReplayRefused(before: Option<SeenFile>, seen: seq<string>, lost: set<string>, now: int, written: bool,
                          boot: int, id: string)
  {
    if written then boot - now <= DELIVERY_SEEN_TTL_MS && id in seen && id !in lost else ListHas(before, boot, id)
  }

  /**
   * The handover law, whichever of the two writes fail: of any id, the file the next process finds has a
   * record exactly when it was there or could be sealed and written, and the list it finds turns its replay
   * away exactly when it names the id and still counts. So the id falls between the two exactly when it has no
   * record and the list on the disk turns it away.
   */
  lemma NoIdFallsBetween(b: Box, now: int, rings: Rings, before: Option<SeenFile>, seen: seq<string>, lost: set<string>,
                         spoolOk: bool, written: bool, boot: int, id: string)
    requires id != "" && ListFits(before) && Distinct(seen) && |seen| <= MAX_SEEN && "" !in seen
    ensures var file, list := FileAfter(b, now, rings, spoolOk), ListAfter(before, seen, lost, now, written);
            && (RecordCarries(file, id) <==> OnFile(b, now, rings, spoolOk, id))
            && (Suppressed(list, boot, id) <==> ReplayRefused(before, seen, lost, now, written, boot, id))
  {
    RecordedIff(b, now, rings, id);
    SavedSeenIs(seen, lost);
    SuppressedIff(ListAfter(before, seen, lost, now, written), boot, id);
  }

  /** With both writes working, no id that the handover reaches falls between. */
  lemma WrittenHandoverCovers(b: Box, now: int, rings: Rings, before: Option<SeenFile>, seen: seq<string>,
                              lost: set<string>, boot: int, id: string)
    requires id != "" && (CarriesId(LostOf(b, now, rings), Some(id)) ==> id in lost)
    ensures Reached(b, now, id) ==>
              OnFile(b, now, rings, true, id) || !ReplayRefused(before, seen, lost, now, true, boot, id)
  {
    RecordedIff(b, now, rings, id);
  }

  /** What a handover fails to reach: the retained items of an agent without an entry. */
  lemma OnlyOrphansAreMissed(b: Box, now: int, id: string)
    requires b.buffer != [] ==> b.listed
    ensures HeldId(b, now, id) && !Reached(b, now, id) ==> !b.known && CarriesId(b.retained, Some(id))
    ensures b.known && HeldId(b, now, id) ==> Reached(b, now, id)
  {
    if b.buffer == [] {
      assert Fresh(b.buffer, now - INBOUND_TTL_MS) == [];
    }
  }

  /** The failing family is real: retained at boot, seen before, and no spawn since. */
  lemma OrphanIsMissed(rings: Rings, now: int)
    ensures var item := Item(Msg("x", Some("d1"), false), now, InboundTtl, false, false);
            var b := Box(true, false, false, false, None, None, false, [], [], [], [], [item]);
            var file := SeenFile(now, SavedSeen(["d1"], {}));
            HeldId(b, now, "d1") && !RecordCarries(Records(b, now, rings), "d1") && Suppressed(Some(file), now, "d1")
  {
    var item := Item(Msg("x", Some("d1"), false), now, InboundTtl, false, false);
    var b := Box(true, false, false, false, None, None, false, [], [], [], [], [item]);
    assert b.retained[0].msg.id == Some("d1");
    assert Incoming(b, now) == [];
    assert Records(b, now, rings) == [];
    SavedSeenIs(["d1"], {});
    SuppressedIff(Some(SeenFile(now, SavedSeen(["d1"], {}))), now, "d1");
  }

  /* ---------- a write that fails ---------- */

  /** What collecting throws out: second copies of an id. */
  function CollectDuplicates(b: Box, now: int): seq<Item> {
    DrainDuplicates(b.drainHeld, Incoming(b, now))
  }

  lemma LoadsOfCopies(items: seq<Item>)
    ensures Loads(AsRetido(items)) == Loads(items) && Loads(AsPausa(items)) == Loads(items)
  {
  }

  /**
   * When the spool cannot be written, every message is still in memory: the retained ones of known
   * agents twice, the others once, less the copies that another copy covers and the buffered
   * messages that had expired.
   */
  lemma FailedWriteKeepsAll(b: Box, now: int, m: Msg)
    ensures Held(b, m) + CountItems(RetainedToSpool(b), m) ==
            Held(Collect(b, now), m) + CountItems(CollectDuplicates(b, now), m) +
            (if b.listed then CountItems(Stale(b.buffer, now - INBOUND_TTL_MS), m) else 0)
  {
    HoldAllBalances(b.drainHeld, Incoming(b, now), m);
    ItemsOfAppend(RetainedToSpool(b) + BufferToSpool(b, now), AsPausa(b.pauseHeld), m);
    ItemsOfAppend(RetainedToSpool(b), BufferToSpool(b, now), m);
    LoadsOfCopies(b.pauseHeld);
    FreshBalances(b.buffer, now - INBOUND_TTL_MS, m);
  }

  lemma {:induction false} DuplicatesAreCovered(held: seq<Item>, items: seq<Item>)
    ensures forall x :: x in DrainDuplicates(held, items) ==>
            HasId(x.msg.id) && CarriesId(HoldAllForDrain(held, items), x.msg.id)
  {
    if items != [] {
      var init, last := items[..|items| - 1], items[|items| - 1];
      DuplicatesAreCovered(held, init);
      forall x | x in DrainDuplicates(held, items)
          ensures HasId(x.msg.id) && CarriesId(HoldAllForDrain(held, items), x.msg.id) {
        CarriesOfAppend(HoldAllForDrain(held, init), [last], x.msg.id);
      }
    }
  }

  /* ---------- what the new process loads ---------- */

  predicate Outlived(r: Record, now: int) {
    now - r.at > if r.pausa || r.retido then TTL_ITEM_MS else SPOOL_TTL_MS
  }

  predicate SealedFormat(r: Record) {
    r.blob.V2? || r.blob.Broken?
  }

  /** The records that wait for a spawn. */
  function Waiting(rs: seq<Record>, now: int): seq<Record> {
    if rs == [] then []
    else
      var init, last := Waiting(rs[..|rs| - 1], now), rs[|rs| - 1];
      if SealedFormat(last) && !Outlived(last, now) then init + [last] else init
  }

  /** A record that waited too long, as an item of the retained queue; unreadable ones are lost. */
  function Overdue(r: Record, rings: Rings, now: int): seq<Item> {
    if !SealedFormat(r) || !Outlived(r, now) then []
    else match ReadRecord(r, rings)
      case None => []
      case Some(m) => [Item(m, if r.at == 0 then now else r.at, InboundTtl, false, false)]
  }

  lemma {:induction false} FreshRecordsWait(rs: seq<Record>, now: int)
    requires forall i :: 0 <= i < |rs| ==> SealedFormat(rs[i]) && !Outlived(rs[i], now)
    ensures Waiting(rs, now) == rs
  {
    if rs != [] {
      FreshRecordsWait(rs[..|rs| - 1], now);
      assert rs == rs[..|rs| - 1] + [rs[|rs| - 1]];
    }
  }

  /** The rings of a process, as every life with them leaves them. */
  ghost predicate SoundRings(rings: Rings) {
    forall p :: p in rings ==> KeyRing.Consistent(rings[p])
  }

  /** The new process holds the key under which the old one sealed. */
  predicate KeyCarriedOver(project: Option<string>, rings: Rings, rings': Rings)
    requires KeyReady(project, rings)
  {
    project.value in rings' && rings[project.value].active.value in KeyRing.Keys(rings'[project.value])
  }

  /** What was sealed opens for the next process if and only if it holds the key. */
  lemma SealThenRead(item: Item, project: Option<string>, rings: Rings, rings': Rings)
    requires KeyReady(project, rings) && SoundRings(rings')
    ensures Seal(item, project, rings).Some?
    ensures ReadRecord(Seal(item, project, rings).value, rings') ==
            if KeyCarriedOver(project, rings, rings') then Some(item.msg) else None
  {
    if project.value in rings' {
      var key, aad := rings[project.value].active.value, SpoolAad(project.value);
      KeyRing.OpensExactly(rings'[project.value], key, KeyRing.Letter(item.msg.content, item.msg.member), Some(aad),
        Some(aad));
      assert aad[0] == 'v';
      assert item.msg == Msg(item.msg.content, item.msg.id, item.msg.member);
    }
  }

  /** Each record opens to the message at its place, or none does. */
  ghost predicate AllOpen(rs: seq<Record>, msgs: seq<Msg>, opens: bool, rings: Rings) {
    |rs| == |msgs| && forall i :: 0 <= i < |rs| ==> ReadRecord(rs[i], rings) == if opens then Some(msgs[i]) else None
  }

  lemma {:induction false} ReadableWhenAllOpen(rs: seq<Record>, msgs: seq<Msg>, opens: bool, rings: Rings)
    requires AllOpen(rs, msgs, opens, rings)
    ensures Readable(rs, rings) == if opens then msgs else []
  {
    if rs != [] {
      ReadableWhenAllOpen(rs[1..], msgs[1..], opens, rings);
      assert msgs == [msgs[0]] + msgs[1..];
    }
  }

  lemma {:induction false} SealedAllOpen(items: seq<Item>, project: Option<string>, rings: Rings, rings': Rings)
    requires KeyReady(project, rings) && SoundRings(rings')
    ensures AllOpen(SealAll(items, project, rings), Loads(items), KeyCarriedOver(project, rings, rings'), rings')
  {
    if items != [] {
      SealedAllOpen(items[..|items| - 1], project, rings, rings');
      SealThenRead(items[|items| - 1], project, rings, rings');
    }
  }

  lemma SealedReadsBack(items: seq<Item>, project: Option<string>, rings: Rings, rings': Rings)
    requires KeyReady(project, rings) && SoundRings(rings')
    ensures Readable(SealAll(items, project, rings), rings') ==
            if KeyCarriedOver(project, rings, rings') then Loads(items) else []
  {
    SealedAllOpen(items, project, rings, rings');
    ReadableWhenAllOpen(SealAll(items, project, rings), Loads(items), KeyCarriedOver(project, rings, rings'), rings');
  }

  lemma ReadableOfOne(r: Record, rings: Rings)
    ensures Readable([r], rings) == if ReadRecord(r, rings).Some? then [ReadRecord(r, rings).value] else []
  {
    assert [r][1..] == [];
  }

  /** Of what was collected, the next process can read all or nothing. */
  function Carried(b: Box, now: int, rings: Rings, rings': Rings): seq<Msg>
    requires KeyReady(b.project, rings)
  {
    if KeyCarriedOver(b.project, rings, rings') then Loads(Collected(b, now)) else []
  }

  /**
   * The round trip: when the key crosses over, the new process reads from the spool exactly the messages the
   * old one collected, in order, followed by what was already waiting; when it does not, only the latter.
   */
  lemma SpoolRoundTrip(b: Box, now: int, rings: Rings, rings': Rings)
    requires KeyReady(b.project, rings) && SoundRings(rings')
    ensures Readable(Records(b, now, rings), rings') == Carried(b, now, rings, rings') + Readable(b.spooled, rings')
    ensures LostOf(b, now, rings) == []
  {
    SealedReadsBack(Collected(b, now), b.project, rings, rings');
    ReadableOfAppend(SealAll(Collected(b, now), b.project, rings), b.spooled, rings');
    SealedOrLost(Collected(b, now), b.project, rings);
  }

  /** The ages of the records are those of the items. */
  lemma {:induction false} SealedAges(items: seq<Item>, project: Option<string>, rings: Rings, now: int)
    requires forall x :: x in items ==>
             now - x.at <= SPOOL_TTL_MS || ((x.pausa || x.retido) && now - x.at <= TTL_ITEM_MS)
    ensures forall i :: 0 <= i < |SealAll(items, project, rings)| ==>
              SealedFormat(SealAll(items, project, rings)[i]) && !Outlived(SealAll(items, project, rings)[i], now)
  {
    if items != [] {
      var init, last := items[..|items| - 1], items[|items| - 1];
      assert items == init + [last];
      SealedAges(init, project, rings, now);
    }
  }

  /** Nothing of this outlives its time before the next process starts. */
  ghost predicate Young(b: Box, now: int, boot: int) {
    && (forall x :: x in Collected(b, now) ==>
      boot - x.at <= SPOOL_TTL_MS || ((x.pausa || x.retido) && boot - x.at <= TTL_ITEM_MS))
    && (forall i :: 0 <= i < |b.spooled| ==> SealedFormat(b.spooled[i]) && !Outlived(b.spooled[i], boot))
  }

  /** But for its key, nothing young enough is lost on the way: the next process's spool is what was collected. */
  lemma YoungMessagesArrive(b: Box, now: int, rings: Rings, rings': Rings, boot: int)
    requires KeyReady(b.project, rings) && SoundRings(rings') && Young(b, now, boot)
    ensures Waiting(Records(b, now, rings), boot) == Records(b, now, rings)
    ensures Readable(Waiting(Records(b, now, rings), boot), rings') ==
            Carried(b, now, rings, rings') + Readable(b.spooled, rings')
  {
    SealedAges(Collected(b, now), b.project, rings, boot);
    FreshRecordsWait(Records(b, now, rings), boot);
    SpoolRoundTrip(b, now, rings, rings');
  }

  /**
   * Once and only once: of an id that was collected here alone and seen, the next process has a record exactly
   * when it turns the replay away, if and only if the list was written and still counts or there is no key;
   * or, without a new list, if the old one names it exactly when it could be sealed and written.
   */
  lemma RecordedIffSuppressed(b: Box, now: int, rings: Rings, before: Option<SeenFile>, seen: seq<string>,
                              lost: set<string>, spoolOk: bool, written: bool, boot: int, id: string)
    requires id != "" && ListFits(before) && Distinct(seen) && |seen| <= MAX_SEEN && "" !in seen
    requires InMemory(b, now, id) && id in seen && !RecordCarries(b.spooled, id) && (written ==> spoolOk)
    requires id in lost <==> CarriesId(LostOf(b, now, rings), Some(id))
    ensures var file, list := FileAfter(b, now, rings, spoolOk), ListAfter(before, seen, lost, now, written);
            var ready := KeyReady(b.project, rings);
            (RecordCarries(file, id) <==> Suppressed(list, boot, id)) <==>
            if written then !ready || boot - now <= DELIVERY_SEEN_TTL_MS
            else (spoolOk && ready <==> ListHas(before, boot, id))
  {
    RecordedIff(b, now, rings, id);
    NoIdFallsBetween(b, now, rings, before, seen, lost, spoolOk, written, boot, id);
  }

  /* ---------- the spool file ---------- */

  /** A line of the spool file. */
  datatype Filed = Filed(agentId: string, record: Record)

  /** The records of one agent, in file order. */
  function OfAgent(file: seq<Filed>, a: string): seq<Record> {
    if file == [] then []
    else
      var init, last := OfAgent(file[..|file| - 1], a), file[|file| - 1];
      if last.agentId == a then init + [last.record] else init
  }

  function Tagged(a: string, rs: seq<Record>): seq<Filed> {
    seq(|rs|, i requires 0 <= i < |rs| => Filed(a, rs[i]))
  }

  lemma {:induction false} OfAgentAppend(x: seq<Filed>, y: seq<Filed>, a: string)
    ensures OfAgent(x + y, a) == OfAgent(x, a) + OfAgent(y, a)
  {
    if y == [] {
      assert x + y == x;
    } else {
      OfAgentAppend(x, y[..|y| - 1], a);
      assert (x + y)[..|x + y| - 1] == x + y[..|y| - 1];
    }
  }

  lemma {:induction false} OfAgentTagged(a: string, rs: seq<Record>, b: string)
    ensures OfAgent(Tagged(a, rs), b) == if a == b then rs else []
  {
    if rs != [] {
      var init := rs[..|rs| - 1];
      OfAgentTagged(a, init, b);
      assert Tagged(a, rs)[..|rs| - 1] == Tagged(a, init);
      assert rs == init + [rs[|rs| - 1]];
    }
  }

  /** The host's memory after a handover that was written. */
  function AfterWrite(b: Box, now: int): Box {
    Collect(b, now).(drainHeld := [], spooled := [], retained := if b.known then [] else b.retained)
  }

  /** One line of the file, as agent `a` feels it; `reter` also expires the queues of other agents. */
  function LoadOne(b: Box, f: Filed, a: string, now: int, env: Env): Outcome {
    var overdue := Overdue(f.record, env.rings, now);
    if f.agentId != a then (if overdue == [] then Quiet(b) else ExpireRetained(b, now))
    else if SealedFormat(f.record) && !Outlived(f.record, now) then
      Outcome(b.(spooled := b.spooled + [f.record]), [RecordMsg(f.record)], [], [])
    else if overdue == [] then
      Outcome(b, [RecordMsg(f.record)], [Gone(Unreadable, RecordMsg(f.record))], [])
    else Retain(b, overdue, now, env.digest).(entered := [RecordMsg(f.record)])
  }

  /** `loadReexecSpool`, as agent `a` feels it. */
  function Boot(b: Box, file: seq<Filed>, a: string, now: int, env: Env): Outcome {
    if file == [] then Quiet(b)
    else
      var before := Boot(b, file[..|file| - 1], a, now, env);
      Then(before, LoadOne(before.box, file[|file| - 1], a, now, env))
  }

  /** The young records wait for a spawn, in file order. */
  ghost predicate Waits(b: Box, o: Outcome, rs: seq<Record>, now: int) {
    o.box.spooled == b.spooled + Waiting(rs, now) && o.entered == RecordMsgs(rs) && o.pushed == []
  }

  lemma {:induction false} YoungRecordsWait(b: Box, file: seq<Filed>, a: string, now: int, env: Env)
    ensures Waits(b, Boot(b, file, a, now, env), OfAgent(file, a), now)
  {
    if file == [] {
      assert b.spooled + [] == b.spooled;
    } else {
      var init, last := file[..|file| - 1], file[|file| - 1];
      YoungRecordsWait(b, init, a, now, env);
      WaitsThen(b, Boot(b, init, a, now, env), OfAgent(init, a), last, a, now, env);
    }
  }

  lemma WaitsThen(b: Box, o: Outcome, rs: seq<Record>, f: Filed, a: string, now: int, env: Env)
    requires Waits(b, o, rs, now)
    ensures Waits(b, Then(o, LoadOne(o.box, f, a, now, env)), if f.agentId == a then rs + [f.record] else rs, now)
  {
    LoadOneWaits(o.box, f, a, now, env);
    OneMoreWaits(rs, f.record, now);
    if f.agentId == a {
      OneMoreWaits([], f.record, now);
      assert [] + [f.record] == [f.record];
      OneMoreBehind(b, o, LoadOne(o.box, f, a, now, env), rs, [f.record], now);
    } else {
      assert rs + [] == rs && o.box.spooled + [] == o.box.spooled;
      OneMoreBehind(b, o, LoadOne(o.box, f, a, now, env), rs, [], now);
    }
  }

  lemma OneMoreBehind(b: Box, o: Outcome, p: Outcome, rs: seq<Record>, more: seq<Record>, now: int)
    requires Waits(b, o, rs, now) && Waits(o.box, p, more, now)
    requires Waiting(rs + more, now) == Waiting(rs, now) + Waiting(more, now) &&
             RecordMsgs(rs + more) == RecordMsgs(rs) + RecordMsgs(more)
    ensures Waits(b, Then(o, p), rs + more, now)
  {
    assert b.spooled + Waiting(rs, now) + Waiting(more, now) == b.spooled + (Waiting(rs, now) + Waiting(more, now));
  }

  lemma OneMoreWaits(rs: seq<Record>, r: Record, now: int)
    ensures Waiting(rs + [r], now) == Waiting(rs, now) + if SealedFormat(r) && !Outlived(r, now) then [r] else []
    ensures RecordMsgs(rs + [r]) == RecordMsgs(rs) + [RecordMsg(r)]
  {
    assert (rs + [r])[..|rs|] == rs;
  }

  lemma LoadOneWaits(b: Box, f: Filed, a: string, now: int, env: Env)
    ensures var o := LoadOne(b, f, a, now, env);
            o.box.spooled == (if f.agentId == a && SealedFormat(f.record) && !Outlived(f.record, now)
              then b.spooled + [f.record] else b.spooled) &&
            o.entered == (if f.agentId == a then [RecordMsg(f.record)] else []) && o.pushed == []
  {
  }

  lemma OverdueIsRecord(r: Record, rings: Rings, now: int, m: Msg)
    requires Overdue(r, rings, now) != []
    ensures CountItems(Overdue(r, rings, now), m) == Count([RecordMsg(r)], m)
  {
    if r.blob.Broken? {
      BrokenNeverOpens(r, rings);
    }
    ReadIsRecordMsg(r, rings);
    ItemsOfOne(Overdue(r, rings, now)[0], m);
    assert Overdue(r, rings, now) == [Overdue(r, rings, now)[0]];
  }

  lemma LoadOneBalances(b: Box, f: Filed, a: string, now: int, env: Env, m: Msg)
    requires WellKept(b)
    ensures Balanced(b, LoadOne(b, f, a, now, env), m) && WellKept(LoadOne(b, f, a, now, env).box)
  {
    var overdue := Overdue(f.record, env.rings, now);
    if f.agentId != a {
      QuietBalances(b, b, m);
      RetainedExpiryBalances(b, now, m);
      ExpiryKeeps(b, now);
    } else if SealedFormat(f.record) && !Outlived(f.record, now) {
      assert RecordMsgs(b.spooled + [f.record]) == RecordMsgs(b.spooled) + [RecordMsg(f.record)];
    } else if overdue == [] {
      GateBalances(b, RecordMsg(f.record), Unreadable, m);
    } else {
      OverdueIsRecord(f.record, env.rings, now, m);
      RetainBalances(b, overdue, now, env.digest, m);
      RetainKeeps(b, overdue, now, env.digest);
    }
  }

  /** Loading accounts for every record: it waits, is retained, or is declared lost. */
  lemma {:induction false} BootBalances(b: Box, file: seq<Filed>, a: string, now: int, env: Env, m: Msg)
    requires WellKept(b)
    ensures Balanced(b, Boot(b, file, a, now, env), m) && WellKept(Boot(b, file, a, now, env).box)
  {
    if file == [] {
      QuietBalances(b, b, m);
    } else {
      var before := Boot(b, file[..|file| - 1], a, now, env);
      BootBalances(b, file[..|file| - 1], a, now, env, m);
      LoadOneBalances(before.box, file[|file| - 1], a, now, env, m);
      ThenBalances(b, before, LoadOne(before.box, file[|file| - 1], a, now, env), m);
    }
  }

  /* ---------- the ledger over two processes ---------- */

  /**
   * What does not make it into the spool: what the runner still held, second copies of an id, buffered
   * messages that had expired, the retained ones of an agent without an entry, and those without a key.
   */
  function HandoverLoss(b: Box, now: int, rings: Rings, m: Msg): nat {
    WithRunner(b.runner, m) + CountItems(CollectDuplicates(b, now), m) +
    (if b.listed then CountItems(Stale(b.buffer, now - INBOUND_TTL_MS), m) else CountItems(b.buffer, m)) +
    (if b.known then 0 else CountItems(b.retained, m)) + CountItems(LostOf(b, now, rings), m)
  }

  lemma HandoverBalances(b: Box, now: int, rings: Rings, m: Msg)
    ensures Held(b, m) == Count(RecordMsgs(Records(b, now, rings)), m) + HandoverLoss(b, now, rings, m)
  {
    CollectedCounts(b, now, m);
    RecordsCount(Collected(b, now), b.spooled, b.project, rings, m);
  }

  /**
   * A handover that was written moves everything it collected out of memory: of each message, what was held is
   * on the file, or still in memory, or a second copy, expired in the buffer, or without a key.
   */
  lemma WriteMovesAll(b: Box, now: int, rings: Rings, m: Msg)
    ensures Held(b, m) ==
            Count(RecordMsgs(Records(b, now, rings)), m) + Held(AfterWrite(b, now), m) +
            CountItems(CollectDuplicates(b, now), m) + CountItems(LostOf(b, now, rings), m) +
            if b.listed then CountItems(Stale(b.buffer, now - INBOUND_TTL_MS), m) else 0
    ensures var c := AfterWrite(b, now);
            c == b.(drainHeld := [], pauseHeld := [], spooled := [], listed := false, buffer := c.buffer,
                    retained := c.retained)
  {
    HandoverBalances(b, now, rings, m);
    assert Loads([]) == [] && RecordMsgs([]) == [];
  }

  lemma RecordsCount(held: seq<Item>, pending: seq<Record>, project: Option<string>, rings: Rings, m: Msg)
    ensures Count(RecordMsgs(SealAll(held, project, rings) + pending), m) + CountItems(Lost(held, project, rings), m) ==
            CountItems(held, m) + Count(RecordMsgs(pending), m)
  {
    var sealed, lost := SealAll(held, project, rings), Lost(held, project, rings);
    SealedOrLost(held, project, rings);
    assert RecordMsgs(sealed + pending) == RecordMsgs(sealed) + RecordMsgs(pending);
    if KeyReady(project, rings) {
      assert Loads(lost) == [];
    } else {
      assert RecordMsgs(sealed) == [];
    }
  }

  lemma CollectedCounts(b: Box, now: int, m: Msg)
    ensures CountItems(b.drainHeld, m) + CountItems(RetainedToSpool(b), m) + CountItems(BufferToSpool(b, now), m) +
            CountItems(b.pauseHeld, m) ==
            CountItems(Collected(b, now), m) + CountItems(CollectDuplicates(b, now), m)
    ensures CountItems(RetainedToSpool(b), m) == if b.known then CountItems(b.retained, m) else 0
    ensures CountItems(BufferToSpool(b, now), m) == if b.listed
            then CountItems(b.buffer, m) - CountItems(Stale(b.buffer, now - INBOUND_TTL_MS), m) else 0
  {
    HoldAllBalances(b.drainHeld, Incoming(b, now), m);
    ItemsOfAppend(RetainedToSpool(b) + BufferToSpool(b, now), AsPausa(b.pauseHeld), m);
    ItemsOfAppend(RetainedToSpool(b), BufferToSpool(b, now), m);
    LoadsOfCopies(b.retained);
    LoadsOfCopies(b.pauseHeld);
    FreshBalances(b.buffer, now - INBOUND_TTL_MS, m);
    assert Loads([]) == [];
  }

  /**
   * The ledger of two lives: whatever one process does before the handover and the next one after
   * it, every message that was held or entered is held at the end or left in a declared way.
   */
  lemma TwoProcessLedger(b: Box, ops: seq<Op>, env: Env, now: int, c: Box, file: seq<Filed>, a: string, boot: int,
                         ops': seq<Op>, env': Env, m: Msg)
    requires WellKept(b) && WellKept(c) && Held(c, m) == 0
    requires OfAgent(file, a) == Records(RunOps(b, ops, env).box, now, env.rings)
    ensures var first := RunOps(b, ops, env);
            var loaded := Boot(c, file, a, boot, env');
            var second := RunOps(loaded.box, ops', env');
            Held(b, m) + Count(first.entered, m) + Count(second.entered, m) ==
            Held(second.box, m) + CountGone(first.gone, m) + HandoverLoss(first.box, now, env.rings, m) +
            CountGone(loaded.gone, m) + CountGone(second.gone, m)
  {
    var first := RunOps(b, ops, env);
    var loaded := Boot(c, file, a, boot, env');
    EveryRunBalances(b, ops, env, m);
    HandoverBalances(first.box, now, env.rings, m);
    BootBalances(c, file, a, boot, env', m);
    YoungRecordsWait(c, file, a, boot, env');
    EveryRunBalances(loaded.box, ops', env', m);
  }
}
