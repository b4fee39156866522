/**
 * A process from its first moment to its successor's: it loads what the previous one left, serves any
 * calls and hands over, whichever writes of the handover fail. And what was collected there, up to the
 * runner of the next process.
 */
module Lives {
  import opened Common
  import opened KeyedFifo
  import opened Messages
  import opened InboundDedup
  import opened QueueRetained
  import opened Custody
  import opened CustodyLaws
  import opened CustodyOrder
  import opened CustodyPushes
  import opened CustodySpool
  import opened Reexec
  import opened Hosting
  import opened Handover
  import opened HostRuns

  /* ---------- a whole life ---------- */

  /** The deliveries of a life: each id is accepted unless it is remembered. */
  method TakeDeliveries(dedup: DeliveryDeduper, arrivals: seq<Option<string>>)
    requires dedup.Valid()
    modifies dedup
    ensures dedup.Valid() && old(dedup.history) <= dedup.history
  {
    for i := 0 to |arrivals|
      invariant dedup.Valid() && old(dedup.history) <= dedup.history
    {
      var _ := dedup.Accept(arrivals[i]);
    }
  }

  /** The agent at the end of a life that began with this file. */
  function LifeOf(file: seq<Filed>, a: string, born: int, ops: seq<Op>, env: Env): Box {
    RunOps(Boot(NEWBORN, file, a, born, env).box, ops, env).box
  }

  /** Boot and any calls. */
  method Live(disk: Disk, digest: Digest, rings: Rings, born: int, calls: seq<Call>, writeOk: seq<bool>,
              arrivals: seq<Option<string>>, ghost a: string)
    returns (host: AgentHost, dedup: DeliveryDeduper, ghost felts: seq<seq<Op>>)
    requires |writeOk| == |calls| && AllWritten(writeOk)
    modifies disk`spool
    ensures host.Valid() && host.InSync() && dedup.Valid() && dedup.maxSeen == MAX_SEEN
    ensures fresh(host) && fresh(host.inboundBuffer) && fresh(host.filaRetida) && fresh(dedup) && host.disk == disk
    ensures EnvOf(host) == Env(digest, rings) && FeltRun(calls, a, felts)
    ensures host.View(a) == LifeOf(old(FileOf(disk.spool)), a, born, Flat(felts), Env(digest, rings))
    ensures LoadDeliverySeen(disk.seen, born) <= dedup.history
  {
    host, dedup := BootProcess(disk, digest, rings, born, true);
    TakeDeliveries(dedup, arrivals);
    felts := RunHost(host, calls, writeOk, a);
  }

  /**
   * Boot, any calls, handover, boot. As long as the process's own rewrites of the spool file work, the next one
   * finds of every agent what this one held of it at the end, as the handover law says: an id is on the file if
   * it still waited or could be sealed and written, and its replay is refused by the list on the disk.
   */
  method WholeLife(disk: Disk, digest: Digest, rings: Rings, born: int, calls: seq<Call>, writeOk: seq<bool>,
                   arrivals: seq<Option<string>>, now: int, boot: int, rings': Rings, spoolOk: bool, seenOk: bool,
                   bootOk: bool, ghost a: string)
    returns (ok: bool, next: AgentHost, nextDedup: DeliveryDeduper, ghost felts: seq<seq<Op>>, ghost file: seq<Filed>,
             ghost last: Box, ghost seen: seq<string>, ghost lost: set<string>)
    requires |writeOk| == |calls| && AllWritten(writeOk) && ListFits(disk.seen)
    modifies disk
    ensures next.Valid() && nextDedup.Valid() && (bootOk ==> next.InSync()) && FeltRun(calls, a, felts)
    ensures last == LifeOf(old(FileOf(disk.spool)), a, born, Flat(felts), Env(digest, rings))
    ensures OfAgent(file, a) == FileAfter(last, now, rings, spoolOk)
    ensures next.View(a) == Boot(NEWBORN, file, a, boot, Env(digest, rings')).box
    ensures forall id {:trigger OnFile(last, now, rings, spoolOk, id)} :: id != "" ==>
              (RecordCarries(OfAgent(file, a), id) <==> OnFile(last, now, rings, spoolOk, id)) &&
              LoadedFrom(next.View(a), OfAgent(file, a), boot, id)
    ensures forall id :: id != "" ==>
              (id in LastN(AcceptedIds(nextDedup.history, MAX_SEEN), MAX_SEEN) <==>
                ReplayRefused(old(disk.seen), seen, lost, now, ok && seenOk, boot, id))
    ensures ok ==> forall id :: id != "" && CarriesId(LostOf(last, now, rings), Some(id)) ==> id in lost
  {
    var host, dedup;
    host, dedup, felts := Live(disk, digest, rings, born, calls, writeOk, arrivals, a);
    last, seen := host.View(a), Remembered(dedup);
    label Closing:
    ok, next, nextDedup, file, lost := SwitchProcess(host, dedup, now, boot, digest, rings', spoolOk, seenOk, bootOk);
    forall id | id != ""
      ensures (RecordCarries(OfAgent(file, a), id) <==> OnFile(last, now, rings, spoolOk, id)) &&
              LoadedFrom(next.View(a), OfAgent(file, a), boot, id)
    {
      assert last == old@Closing(host.View(a)) && rings == old@Closing(host.rings);
    }
  }

  /* ---------- from the old process to the new runner ---------- */

  /** A message with this id. */
  predicate Has(msgs: seq<Msg>, id: string) {
    exists i :: 0 <= i < |msgs| && msgs[i].id == Some(id)
  }

  lemma HasOfAppend(x: seq<Msg>, y: seq<Msg>, id: string)
    ensures Has(x + y, id) <==> Has(x, id) || Has(y, id)
  {
    if Has(x, id) {
      var i :| 0 <= i < |x| && x[i].id == Some(id);
      assert (x + y)[i].id == Some(id);
    }
    if Has(y, id) {
      var i :| 0 <= i < |y| && y[i].id == Some(id);
      assert (x + y)[|x| + i].id == Some(id);
    }
  }

  lemma {:induction false} ReadableHasRecordIds(rs: seq<Record>, rings: Rings, id: string)
    requires !RecordCarries(rs, id)
    ensures !Has(Readable(rs, rings), id)
  {
    if rs != [] {
      assert rs == [rs[0]] + rs[1..];
      RecordCarriesAppend([rs[0]], rs[1..], id);
      assert [rs[0]][0] == rs[0];
      ReadableHasRecordIds(rs[1..], rings, id);
      ReadableOfFirst(rs, rings);
      HasOfAppend(ReadOne(rs[0], rings), Readable(rs[1..], rings), id);
    }
  }

  lemma HasOfLoads(items: seq<Item>, id: string)
    ensures Has(Loads(items), id) <==> CarriesId(items, Some(id))
  {
    if CarriesId(items, Some(id)) {
      var i :| 0 <= i < |items| && items[i].msg.id == Some(id);
      assert Loads(items)[i].id == Some(id);
    }
  }

  /** Loading a file touches the spool and the retained queue alone. */
  lemma {:induction false} BootTouchesStores(b: Box, file: seq<Filed>, a: string, now: int, env: Env)
    ensures var c := Boot(b, file, a, now, env).box; c == b.(spooled := c.spooled, retained := c.retained)
  {
    if file != [] {
      BootTouchesStores(b, file[..|file| - 1], a, now, env);
      LoadOneTouchesStores(Boot(b, file[..|file| - 1], a, now, env).box, file[|file| - 1], a, now, env);
    }
  }

  lemma LoadOneTouchesStores(b: Box, f: Filed, a: string, now: int, env: Env)
    ensures var c := LoadOne(b, f, a, now, env).box; c == b.(spooled := c.spooled, retained := c.retained)
  {
    RetainTouchesRetained(b, Overdue(f.record, env.rings, now), now, env.digest);
  }

  lemma RetainTouchesRetained(b: Box, novos: seq<Item>, now: int, digest: Digest)
    ensures var c := Retain(b, novos, now, digest).box; c == b.(retained := c.retained)
  {
  }

  /** The agent's first runner in a process that has only loaded its file. */
  function FirstSpawn(file: seq<Filed>, a: string, boot: int, r: Runner, project: Option<string>, t: int, env: Env): Box
  {
    Custody.Spawn(Boot(NEWBORN, file, a, boot, env).box, false, r, project, t, env.digest).box
  }

  lemma FirstSpawnIs(file: seq<Filed>, a: string, boot: int, r: Runner, project: Option<string>, t: int, env: Env)
    ensures var c := FirstSpawn(file, a, boot, r, project, t, env);
            && c.spooled == Waiting(OfAgent(file, a), boot) && c.runner == Some(r.(queue := [], inFlight := None))
            && !c.paused && !c.draining && Started(c) == c
  {
    BootTouchesStores(NEWBORN, file, a, boot, env);
    YoungRecordsWait(NEWBORN, file, a, boot, env);
    assert [] + Waiting(OfAgent(file, a), boot) == Waiting(OfAgent(file, a), boot);
  }

  /** A flush whose runner takes all that is readable of the spool. */
  lemma FlushEmptiesSpool(b: Box, rings: Rings, now: int)
    requires !b.paused && !b.draining && b.runner.Some? && TakesAll(b.runner.value, Readable(b.spooled, rings), 0)
    ensures var o := Flush(b, rings, now);
            o.box.spooled == [] && Taken(o.pushed, true) == Readable(b.spooled, rings)
  {
    FlushOvertakesIff(b, rings, now);
    SpoolPart(b, rings, now);
    NothingLeftIff(b.runner.value, b.spooled, rings);
    EmptySpoolFlush(DeliverSpool(b, rings, now).0.box, rings, now);
  }

  /**
   * Arrival, exactly. With the key at hand and nothing outlived, the first flush of the next process hands the
   * runner, in order, everything the old process had collected if the next one holds the key it was sealed
   * under, and nothing of it otherwise; then what still opens of the spool before.
   */
  lemma CollectedArrivesIff(b: Box, now: int, rings: Rings, rings': Rings, file: seq<Filed>, a: string, boot: int,
                            r: Runner, project: Option<string>, t: int, digest: Digest)
    returns (o: Outcome)
    requires KeyReady(b.project, rings) && SoundRings(rings') && Young(b, now, boot)
    requires OfAgent(file, a) == Records(b, now, rings) && TakesAll(r, Readable(Records(b, now, rings), rings'), 0)
    ensures o == Custody.SpawnDone(FirstSpawn(file, a, boot, r, project, t, Env(digest, rings')), rings', t)
    ensures Taken(o.pushed, true) == Carried(b, now, rings, rings') + Readable(b.spooled, rings') && o.box.spooled == []
  {
    var msgs := FileReads(b, now, rings, rings', OfAgent(file, a), boot);
    var c := SpawnedWith(file, a, boot, r, project, t, Env(digest, rings'));
    o := FirstFlush(c, r, msgs, rings', t);
  }

  /** What the next process can read of the file. */
  lemma FileReads(b: Box, now: int, rings: Rings, rings': Rings, rs: seq<Record>, boot: int) returns (msgs: seq<Msg>)
    requires KeyReady(b.project, rings) && SoundRings(rings') && Young(b, now, boot) && rs == Records(b, now, rings)
    ensures msgs == Readable(Waiting(rs, boot), rings') == Readable(rs, rings')
    ensures msgs == Carried(b, now, rings, rings') + Readable(b.spooled, rings')
  {
    YoungMessagesArrive(b, now, rings, rings', boot);
    msgs := Readable(rs, rings');
  }

  lemma SpawnedWith(file: seq<Filed>, a: string, boot: int, r: Runner, project: Option<string>, t: int, env: Env)
    returns (c: Box)
    ensures c == FirstSpawn(file, a, boot, r, project, t, env) && c.spooled == Waiting(OfAgent(file, a), boot)
    ensures c.runner.Some? && Later(r, c.runner.value, 0) && !c.paused && !c.draining && Started(c) == c
  {
    c := FirstSpawn(file, a, boot, r, project, t, env);
    FirstSpawnIs(file, a, boot, r, project, t, env);
  }

  lemma FirstFlush(c: Box, r: Runner, msgs: seq<Msg>, rings: Rings, t: int) returns (o: Outcome)
    requires Started(c) == c && !c.paused && !c.draining && c.runner.Some? && Later(r, c.runner.value, 0)
    requires msgs == Readable(c.spooled, rings) && TakesAll(r, msgs, 0)
    ensures o == Custody.SpawnDone(c, rings, t) && o.box.spooled == [] && Taken(o.pushed, true) == msgs
  {
    o := Flush(c, rings, t);
    TakesAllLater(r, c.runner.value, 0, msgs, 0);
    FlushEmptiesSpool(c, rings, t);
  }

  /**
   * So an id that was collected, seen, and not in the spool before reaches the next runner, from the spool or
   * by its replay, exactly when the key crosses over or the replay is not refused.
   */
  lemma IdArrivesIff(b: Box, now: int, rings: Rings, rings': Rings, file: seq<Filed>, a: string, boot: int, r: Runner,
                     project: Option<string>, t: int, digest: Digest, seen: seq<string>, lost: set<string>, id: string)
    returns (o: Outcome)
    requires KeyReady(b.project, rings) && SoundRings(rings') && Young(b, now, boot)
    requires OfAgent(file, a) == Records(b, now, rings) && TakesAll(r, Readable(Records(b, now, rings), rings'), 0)
    requires id != "" && InMemory(b, now, id) && !RecordCarries(b.spooled, id)
    requires Distinct(seen) && |seen| <= MAX_SEEN && "" !in seen
    ensures o == Custody.SpawnDone(FirstSpawn(file, a, boot, r, project, t, Env(digest, rings')), rings', t)
    ensures Has(Taken(o.pushed, true), id) || !Suppressed(Some(SeenFile(now, SavedSeen(seen, lost))), boot, id) <==>
            KeyCarriedOver(b.project, rings, rings') || id !in seen || id in lost ||
            boot - now > DELIVERY_SEEN_TTL_MS
  {
    o := CollectedArrivesIff(b, now, rings, rings', file, a, boot, r, project, t, digest);
    NoIdFallsBetween(b, now, rings, None, seen, lost, true, true, boot, id);
    CollectedIds(b, now, id);
    HasOfLoads(Collected(b, now), id);
    ReadableHasRecordIds(b.spooled, rings', id);
    HasOfAppend(Carried(b, now, rings, rings'), Readable(b.spooled, rings'), id);
  }
}
