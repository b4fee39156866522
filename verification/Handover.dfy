/**
 * The two writes of a handover and the two reads that answer them (src/reexec-snapshot.ts,
 * src/main.ts): the spool comes first, and the seen ids follow only if it was written.
 */
module Handover {
  import opened Common
  import opened KeyedFifo
  import opened Messages
  import opened InboundDedup
  import opened QueueRetained
  import opened Custody
  import opened CustodyLaws
  import opened Reexec
  import opened Hosting

  /** What is known of an agent before anything is. */
  const NEWBORN: Box := Box(false, false, false, false, None, None, false, [], [], [], [], [])

  /** The ids the deduper knows, less those that were not written. */
  method FilterSeen(vistos: seq<string>, fora: seq<string>) returns (saved: seq<string>)
    ensures saved == SavedSeen(vistos, ToSet(fora))
  {
    saved := [];
    for i := 0 to |vistos|
      invariant saved == SavedSeen(vistos[..i], ToSet(fora))
    {
      assert vistos[..i + 1][..i] == vistos[..i];
      if vistos[i] !in fora {
        saved := saved + [vistos[i]];
      }
    }
    assert vistos[..|vistos|] == vistos;
  }

  /** What a deduper remembers. */
  ghost function Remembered(dedup: DeliveryDeduper): seq<string>
    reads dedup
  {
    LastN(AcceptedIds(dedup.history, dedup.maxSeen), dedup.maxSeen)
  }

  /**
   * `commitReexecSnapshot`. It fails only if there was something to write and the spool could not be written;
   * then the disk stays as it was and memory is collected into the drain queues. The seen ids are written
   * only after the spool, without those of lost messages; that write may fail too, and leaves the old list.
   */
  method CommitReexecSnapshot(host: AgentHost, dedup: DeliveryDeduper, now: int, spoolOk: bool, seenOk: bool)
    returns (ok: bool, ghost lost: set<string>)
    requires host.Valid() && dedup.Valid()
    modifies host, host.inboundBuffer, host.filaRetida, host.disk
    ensures host.Valid() && host.rings == old(host.rings)
    ensures !ok ==> !spoolOk && exists a :: Records(old(host.View(a)), now, host.rings) != []
    ensures ok && !spoolOk ==> forall a :: Records(old(host.View(a)), now, host.rings) == []
    ensures !ok ==> host.disk.spool == old(host.disk.spool)
    ensures !ok ==> forall a :: host.View(a) == Collect(old(host.View(a)), now)
    ensures old(host.SpoolFileCurrent()) ==>
              forall a :: OfAgent(FileOf(host.disk.spool), a) == FileAfter(old(host.View(a)), now, host.rings, spoolOk)
    ensures ok ==> forall id :: id in lost <==>
            id != "" && exists a :: CarriesId(LostOf(old(host.View(a)), now, host.rings), Some(id))
    ensures host.disk.seen == ListAfter(old(host.disk.seen), Remembered(dedup), lost, now, ok && seenOk)
    ensures old(ListFits(host.disk.seen)) && dedup.maxSeen == MAX_SEEN ==> ListFits(host.disk.seen)
  {
    var r := host.WriteReexecSpool(now, spoolOk);
    if old(host.SpoolFileCurrent()) {
      forall a ensures OfAgent(FileOf(host.disk.spool), a) == FileAfter(old(host.View(a)), now, host.rings, spoolOk) {
        if r.Done? && !r.written {
          assert Records(old(host.View(a)), now, host.rings) == [];
        }
      }
    }
    if r.Threw? {
      lost := {};
      return false, lost;
    }
    lost := ToSet(r.lostDeliveryIds);
    var vistos := dedup.Snapshot();
    var saved := FilterSeen(vistos, r.lostDeliveryIds);
    if seenOk {
      KnownAreMarked(dedup);
      SavedSeenIs(vistos, lost);
      host.disk.seen := Some(SeenFile(now, saved));
    }
    ok := true;
  }

  /** `saveDeliverySeen` and `loadDeliverySeen` from the deduper's side: every id read is marked. */
  method MarkAll(dedup: DeliveryDeduper, ids: seq<string>)
    requires dedup.Valid() && dedup.history == [] && "" !in ids
    modifies dedup
    ensures dedup.Valid() && dedup.history == ids
  {
    for i := 0 to |ids|
      invariant dedup.Valid() && dedup.history == ids[..i]
    {
      assert ids[i] in ids;
      dedup.MarkSeen(Some(ids[i]));
    }
  }

  lemma {:induction false} LoadedIdsAreReal(ids: seq<string>)
    ensures "" !in NonEmptyIds(ids)
  {
    if ids != [] {
      LoadedIdsAreReal(ids[1..]);
    }
  }

  /** The deduper as the list of seen ids leaves it. */
  method LoadDeduper(disk: Disk, now: int) returns (dedup: DeliveryDeduper)
    ensures dedup.Valid() && dedup.maxSeen == MAX_SEEN && fresh(dedup)
    ensures dedup.history == LoadDeliverySeen(disk.seen, now)
  {
    dedup := new DeliveryDeduper(MAX_SEEN);
    if disk.seen.Some? {
      LoadedIdsAreReal(disk.seen.value.ids);
    }
    MarkAll(dedup, LoadDeliverySeen(disk.seen, now));
  }

  /** The start of the next process: the spool, then the seen ids. */
  method BootProcess(disk: Disk, digest: Digest, rings: Rings, now: int, writeOk: bool)
    returns (host: AgentHost, dedup: DeliveryDeduper)
    modifies disk`spool
    ensures host.Valid() && fresh(host) && fresh(host.inboundBuffer) && fresh(host.filaRetida) && host.disk == disk
    ensures host.rings == rings && host.filaRetida.digest == digest
    ensures old(disk.spool).Some? ==> host.spoolPath || host.NothingSpooled()
    ensures writeOk || old(disk.spool).None? ==> host.InSync()
    ensures dedup.Valid() && dedup.maxSeen == MAX_SEEN && fresh(dedup)
    ensures forall a :: host.View(a) == Boot(NEWBORN, FileOf(old(disk.spool)), a, now, Env(digest, rings)).box
    ensures dedup.history == LoadDeliverySeen(disk.seen, now)
  {
    host := new AgentHost(digest, rings, disk);
    assert disk.spool.None? ==> host.InSync();
    host.LoadReexecSpool(now, writeOk);
    dedup := LoadDeduper(disk, now);
  }

  /** What a deduper remembers is never the empty id. */
  lemma KnownAreMarked(dedup: DeliveryDeduper)
    requires dedup.Valid()
    ensures "" !in LastN(AcceptedIds(dedup.history, dedup.maxSeen), dedup.maxSeen)
  {
    RemembersNewestAccepted(dedup.history, dedup.maxSeen);
  }

  /* ---------- the next process ---------- */

  /** What a process that only loaded its file can hold of an id. */
  ghost predicate OnlyStores(b: Box, id: string) {
    && b.drainHeld == [] && b.pauseHeld == [] && b.buffer == [] && b.runner.None? && |b.retained| <= CAP_POR_AGENTE
    && !CarriesId(b.retained, Some(id)) && !RecordCarries(b.spooled, id)
  }

  lemma FreshCarriesLess(items: seq<Item>, cutoff: int, id: Option<string>)
    requires !CarriesId(items, id)
    ensures !CarriesId(Fresh(items, cutoff), id) && |Fresh(items, cutoff)| <= |items|
  {
    FreshMembers(items, cutoff);
    FreshAndStale(items, cutoff);
    forall i | 0 <= i < |Fresh(items, cutoff)| ensures Fresh(items, cutoff)[i].msg.id != id {
      assert Fresh(items, cutoff)[i] in Fresh(items, cutoff);
      var j :| 0 <= j < |items| && items[j] == Fresh(items, cutoff)[i];
    }
  }

  lemma RetainedCarriesLess(itens: seq<Item>, novos: seq<Item>, digest: Digest, id: Option<string>)
    requires |novos| == 1 && !CarriesId(itens, id) && novos[0].msg.id != id && |itens| <= CAP_POR_AGENTE
    ensures !CarriesId(Retained(itens, novos, digest), id) && |Retained(itens, novos, digest)| <= CAP_POR_AGENTE
  {
    var key := Chave(digest);
    assert novos[..|novos| - 1] == [] && Run(itens, [], CAP_POR_AGENTE, key) == itens;
    assert Retained(itens, novos, digest) == Admit(itens, novos[0], CAP_POR_AGENTE, key);
    var all := itens + [novos[0]];
    forall i | 0 <= i < |all| ensures all[i].msg.id != id {
    }
  }

  lemma LoadOneBringsOnlyItsOwn(b: Box, f: Filed, a: string, now: int, env: Env, id: string)
    requires OnlyStores(b, id) && (f.agentId == a ==> f.record.id != Some(id))
    ensures OnlyStores(LoadOne(b, f, a, now, env).box, id)
  {
    var overdue := Overdue(f.record, env.rings, now);
    FreshCarriesLess(b.retained, now - TTL_ITEM_MS, Some(id));
    if overdue != [] {
      assert overdue == [overdue[0]] && overdue[0].msg.id == f.record.id;
      if f.agentId == a {
        RetainedCarriesLess(Vivos(b.retained, now), overdue, env.digest, Some(id));
      }
    }
  }

  /** A process that has only loaded its file holds no id that the file does not have. */
  lemma {:induction false} BootBringsOnlyTheFile(b: Box, file: seq<Filed>, a: string, now: int, env: Env, id: string)
    requires OnlyStores(b, id) && !RecordCarries(OfAgent(file, a), id)
    ensures OnlyStores(Boot(b, file, a, now, env).box, id)
  {
    if file != [] {
      var init, last := file[..|file| - 1], file[|file| - 1];
      if last.agentId == a {
        RecordCarriesAppend(OfAgent(init, a), [last.record], id);
        assert [last.record][0] == last.record;
      }
      BootBringsOnlyTheFile(b, init, a, now, env, id);
      LoadOneBringsOnlyItsOwn(Boot(b, init, a, now, env).box, last, a, now, env, id);
    }
  }

  /** The next process does not have the message, and turns its replay away. */
  ghost predicate FallsBetween(b: Box, history: seq<string>, boot: int, id: string) {
    !HeldId(b, boot, id) && id in LastN(AcceptedIds(history, MAX_SEEN), MAX_SEEN)
  }

  /** A process that has only loaded its file. */
  ghost predicate LoadedFrom(c: Box, rs: seq<Record>, boot: int, id: string) {
    && c.spooled == Waiting(rs, boot)
    && (!RecordCarries(rs, id) ==> !HeldId(c, boot, id))
  }

  lemma LoadsItsFile(file: seq<Filed>, a: string, boot: int, env: Env, id: string)
    ensures LoadedFrom(Boot(NEWBORN, file, a, boot, env).box, OfAgent(file, a), boot, id)
  {
    YoungRecordsWait(NEWBORN, file, a, boot, env);
    assert [] + Waiting(OfAgent(file, a), boot) == Waiting(OfAgent(file, a), boot);
    if !RecordCarries(OfAgent(file, a), id) {
      BootBringsOnlyTheFile(NEWBORN, file, a, boot, env, id);
      assert Fresh([], boot - INBOUND_TTL_MS) == [];
    }
  }

  /** With all records young, an id falls between exactly when it has none and its replay is refused. */
  lemma FallsBetweenIff(c: Box, rs: seq<Record>, history: seq<string>, boot: int, id: string)
    requires LoadedFrom(c, rs, boot, id)
    requires forall i :: 0 <= i < |rs| ==> SealedFormat(rs[i]) && !Outlived(rs[i], boot)
    ensures FallsBetween(c, history, boot, id) <==>
            !RecordCarries(rs, id) && id in LastN(AcceptedIds(history, MAX_SEEN), MAX_SEEN)
  {
    FreshRecordsWait(rs, boot);
  }

  /**
   * A whole handover, whichever of its writes fail. Every agent starts in the next process from exactly the
   * lines the file has for it, and of every id that process knows exactly what the handover law says: it is on
   * the file if it was already there or could be sealed and written, and otherwise not held at all; its replay
   * is refused by the list that is on the disk.
   */
  method SwitchProcess(host: AgentHost, dedup: DeliveryDeduper, now: int, boot: int, digest: Digest, rings: Rings,
                       spoolOk: bool, seenOk: bool, bootOk: bool)
    returns (ok: bool, next: AgentHost, nextDedup: DeliveryDeduper, ghost file: seq<Filed>, ghost lost: set<string>)
    requires host.Valid() && host.InSync() && dedup.Valid() && dedup.maxSeen == MAX_SEEN && ListFits(host.disk.seen)
    modifies host, host.inboundBuffer, host.filaRetida, host.disk
    ensures next.Valid() && nextDedup.Valid() && (bootOk ==> next.InSync())
    ensures next.rings == rings && next.filaRetida.digest == digest
    ensures ok <==> spoolOk || forall a :: Records(old(host.View(a)), now, old(host.rings)) == []
    ensures forall a :: OfAgent(file, a) == FileAfter(old(host.View(a)), now, old(host.rings), spoolOk)
    ensures forall a :: next.View(a) == Boot(NEWBORN, file, a, boot, Env(digest, rings)).box
    ensures ok ==> forall id :: id in lost <==>
              id != "" && exists a :: CarriesId(LostOf(old(host.View(a)), now, old(host.rings)), Some(id))
    ensures forall a, id {:trigger OnFile(old(host.View(a)), now, old(host.rings), spoolOk, id)} ::
              id != "" ==>
                (RecordCarries(OfAgent(file, a), id) <==>
                  OnFile(old(host.View(a)), now, old(host.rings), spoolOk, id)) &&
                LoadedFrom(next.View(a), OfAgent(file, a), boot, id)
    ensures forall id :: id != "" ==>
              (id in LastN(AcceptedIds(nextDedup.history, MAX_SEEN), MAX_SEEN) <==>
                ReplayRefused(old(host.disk.seen), Remembered(dedup), lost, now, ok && seenOk, boot, id))
  {
    RemembersNewestAccepted(dedup.history, MAX_SEEN);
    KnownAreMarked(dedup);
    ghost var before := host.disk.seen;
    ok, lost := CommitReexecSnapshot(host, dedup, now, spoolOk, seenOk);
    file := FileOf(host.disk.spool);
    next, nextDedup := BootProcess(host.disk, digest, rings, boot, bootOk);
    RemembersNewestAccepted(nextDedup.history, MAX_SEEN);
    forall a, id | id != ""
      ensures RecordCarries(OfAgent(file, a), id) <==> OnFile(old(host.View(a)), now, old(host.rings), spoolOk, id)
      ensures LoadedFrom(next.View(a), OfAgent(file, a), boot, id)
    {
      RecordedIff(old(host.View(a)), now, old(host.rings), id);
      LoadsItsFile(file, a, boot, Env(digest, rings), id);
    }
    forall id | id != ""
      ensures id in LastN(AcceptedIds(nextDedup.history, MAX_SEEN), MAX_SEEN) <==>
              ReplayRefused(before, Remembered(dedup), lost, now, ok && seenOk, boot, id)
    {
      NoIdFallsBetween(NEWBORN, now, rings, before, Remembered(dedup), lost, spoolOk, ok && seenOk, boot, id);
    }
  }

  /**
   * So it falls between whenever it is not on the file, the new list is not written, because the spool was
   * not or because that write failed too, and the old list still counts and has it.
   */
  method SwitchThatLoses(host: AgentHost, dedup: DeliveryDeduper, now: int, boot: int, digest: Digest, rings: Rings,
                         spoolOk: bool, seenOk: bool, ghost a: string, ghost id: string)
    returns (next: AgentHost, nextDedup: DeliveryDeduper)
    requires host.Valid() && host.InSync() && dedup.Valid() && dedup.maxSeen == MAX_SEEN && ListFits(host.disk.seen)
    requires id != "" && !OnFile(host.View(a), now, host.rings, spoolOk, id) && ListHas(host.disk.seen, boot, id)
    requires seenOk ==> !spoolOk && Records(host.View(a), now, host.rings) != []
    modifies host, host.inboundBuffer, host.filaRetida, host.disk
    ensures next.Valid() && nextDedup.Valid() && FallsBetween(next.View(a), nextDedup.history, boot, id)
  {
    var ok; ghost var file, lost;
    ok, next, nextDedup, file, lost := SwitchProcess(host, dedup, now, boot, digest, rings, spoolOk, seenOk, true);
    assert !OnFile(old(host.View(a)), now, old(host.rings), spoolOk, id);
  }
}
