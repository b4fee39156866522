/** The inputs on which the custody code breaks a promise of its comments; the exact conditions are stated elsewhere. */
module CustodyExamples {
  import opened Common
  import opened Messages
  import opened InboundDedup
  import opened QueueRetained
  import opened Custody
  import opened CustodyLaws
  import opened CustodyOrder
  import opened CustodyPushes
  import opened CustodyLosses
  import opened Reexec
  import opened Hosting
  import opened Handover
  import KeyRing

  const LETTER: Msg := Msg("x", Some("d1"), false)
  const NEWER: Msg := Msg("y", Some("d2"), false)
  const NEWEST: Msg := Msg("z", Some("d3"), false)

  /** An agent of project "p" with the given runner. */
  function Agent(draining: bool, paused: bool, runner: Option<Runner>, buffer: seq<Item>, spooled: seq<Record>): Box {
    Box(draining, paused, true, false, Some("p"), runner, buffer != [], buffer, [], [], spooled, [])
  }

  /** A process that holds one key for the project. */
  function OneKey(key: KeyRing.Key): Rings {
    map["p" := KeyRing.Ring(Some(key), [], [])]
  }

  /** What an earlier process wrote for this message. */
  function Spooled(m: Msg, now: int, key: KeyRing.Key): (rs: seq<Record>)
    requires |key| == KeyRing.KEY_BYTES
    ensures |rs| == 1
  {
    SealOne(Plain(m, now), Some("p"), OneKey(key));
    [Seal(Plain(m, now), Some("p"), OneKey(key)).value]
  }

  lemma SpooledReadsBack(m: Msg, now: int, key: KeyRing.Key)
    requires |key| == KeyRing.KEY_BYTES
    ensures Readable(Spooled(m, now, key), OneKey(key)) == [m]
    ensures ReadRecord(Spooled(m, now, key)[0], OneKey(key)) == Some(m)
    ensures RecordMsgs(Spooled(m, now, key)) == [m] && UnreadableMsgs(Spooled(m, now, key), OneKey(key)) == []
  {
    SealOne(Plain(m, now), Some("p"), OneKey(key));
    SealThenRead(Plain(m, now), Some("p"), OneKey(key), OneKey(key));
    ReadableOfOne(Spooled(m, now, key)[0], OneKey(key));
    assert UnreadableMsgs(Spooled(m, now, key)[1..], OneKey(key)) == [];
  }

  lemma OneIsFresh(item: Item, cutoff: int)
    requires item.at >= cutoff
    ensures Fresh([item], cutoff) == [item] && Stale([item], cutoff) == [] && Loads([item]) == [item.msg]
  {
    assert [item][..|[item]| - 1] == [];
    FreshAndStale([item], cutoff);
  }

  lemma NothingIsHeld(r: Runner, m: Msg)
    requires r.queue == [] && r.inFlight == None
    ensures WithRunner(Some(r), m) == 0 && Loads([]) == [] && RecordMsgs([]) == []
  {
  }

  /* ---------- flushes that lose what was buffered ---------- */

  /** A runner that dies before the flush takes what was buffered with it. */
  lemma DeadRunnerLosesBuffer(now: int)
    ensures var b := Agent(false, false, None, [Plain(LETTER, now)], []);
            Held(b, LETTER) == 1 && Held(Flush(b, map[], now).box, LETTER) == 0
  {
    OneIsFresh(Plain(LETTER, now), now - INBOUND_TTL_MS);
    assert Loads([]) == [] && RecordMsgs([]) == [];
  }

  /** A runner that takes nothing. */
  function Unwilling(): Runner {
    FreshRunner(n => false, n => false, n => 0)
  }

  lemma UnwillingTakesNothing(b: Box, msgs: seq<Msg>, rings: Rings, now: int)
    requires b.runner == Some(Unwilling()) && |msgs| == 1
    ensures PushBuffer(b, msgs, rings, now).box == b.(runner := Some(Unwilling().(pushes := 1)))
  {
    assert msgs[..|msgs| - 1] == [] && PushBuffer(b, [], rings, now) == Quiet(b);
  }

  /** A living runner that turns the buffered message down loses it: nobody looks at its answer. */
  lemma RefusalLosesBuffer(now: int)
    ensures var b := Agent(false, false, Some(Unwilling()), [Plain(LETTER, now)], []);
            Held(b, LETTER) == 1 && Held(Flush(b, map[], now).box, LETTER) == 0
  {
    var b := Agent(false, false, Some(Unwilling()), [Plain(LETTER, now)], []);
    OneIsFresh(Plain(LETTER, now), now - INBOUND_TTL_MS);
    UnwillingTakesNothing(b.(buffer := [], listed := false), Loads([Plain(LETTER, now)]), map[], now);
    NothingIsHeld(Unwilling(), LETTER);
    NothingIsHeld(Unwilling().(pushes := 1), LETTER);
  }

  /** A pause queue as full as it may be. */
  function FullQueue(now: int): seq<Item> {
    seq(CAP_POR_AGENTE, i => Plain(NEWER, now))
  }

  lemma FullQueueHasNoLetter(now: int)
    ensures Count(Loads(FullQueue(now)), LETTER) == 0
    ensures HoldAtPause(FullQueue(now), [Plain(LETTER, now)], true) == FullQueue(now)
  {
    assert LETTER !in Loads(FullQueue(now));
  }

  /** A flush to a paused agent whose pause queue is full drops the buffer: it goes in front and is cut off. */
  lemma FullPauseLosesBuffer(now: int)
    ensures var b := Agent(false, true, Some(Unwilling()), [Plain(LETTER, now)], []).(pauseHeld := FullQueue(now));
            Held(b, LETTER) == 1 && Held(Flush(b, map[], now).box, LETTER) == 0
  {
    OneIsFresh(Plain(LETTER, now), now - INBOUND_TTL_MS);
    FullQueueHasNoLetter(now);
    NothingIsHeld(Unwilling(), LETTER);
    assert [] + [Plain(LETTER, now)] == [Plain(LETTER, now)];
  }

  /* ---------- retries that lose what was spooled ---------- */

  /** A change of a paused runner's queue reads the spool and drops it. */
  lemma PausedQueueChangeLosesSpool(now: int, key: KeyRing.Key, r: Runner)
    requires |key| == KeyRing.KEY_BYTES && r.queue == [] && r.inFlight == None
    ensures var b := Agent(false, true, Some(r), [], Spooled(LETTER, now, key));
            Held(b, LETTER) == 1 && Held(QueueChanged(b, OneKey(key), now).box, LETTER) == 0
  {
    SpooledReadsBack(LETTER, now, key);
    NothingIsHeld(r, LETTER);
  }

  /** A record that no longer opens is dropped by any retry that reaches it. */
  lemma UnreadableRecordIsLost(now: int, r: Runner)
    requires r.queue == [] && r.inFlight == None
    ensures var record := Record("p", Some("d1"), now, KeyRing.Broken, false, false);
            var b := Agent(false, false, Some(r), [], [record]);
            Held(b, RecordMsg(record)) == 1 && Held(QueueChanged(b, map[], now).box, RecordMsg(record)) == 0
  {
    var record := Record("p", Some("d1"), now, KeyRing.Broken, false, false);
    var rs := [record];
    assert RecordMsgs(rs) == [RecordMsg(record)];
    assert rs[1..] == [] && PushSpool(r, rs, map[]).rest == [] && PushSpool(r, rs, map[]).runner == r;
    NothingIsHeld(r, RecordMsg(record));
  }

  /** A drain keeps the message of the spool under no id, so a replay of it is not recognised. */
  lemma DrainStripsId(now: int, key: KeyRing.Key, r: Runner)
    requires |key| == KeyRing.KEY_BYTES && r.queue == [] && r.inFlight == None
    ensures var b := Agent(true, false, Some(r), [], Spooled(LETTER, now, key));
            var c := QueueChanged(b, OneKey(key), now).box;
            Held(b, LETTER) == 1 && Held(c, LETTER) == 0 && Held(c, LETTER.(id := None)) == 1
  {
    SpooledReadsBack(LETTER, now, key);
    NothingIsHeld(r, LETTER);
    NothingIsHeld(r, LETTER.(id := None));
    assert WithoutIds([LETTER]) == [LETTER.(id := None)];
    LoadsOfStamp(WithoutIds([LETTER]), now);
    assert [] + Stamp(WithoutIds([LETTER]), now) == Stamp(WithoutIds([LETTER]), now);
  }

  /** A message that never had an id goes through the same drain unharmed. */
  lemma DrainKeepsNameless(now: int, key: KeyRing.Key, r: Runner)
    requires |key| == KeyRing.KEY_BYTES
    ensures var b := Agent(true, false, Some(r), [], Spooled(LETTER.(id := None), now, key));
            Lossless(b, QueueChanged(b, OneKey(key), now).box, [], [])
  {
    var b := Agent(true, false, Some(r), [], Spooled(LETTER.(id := None), now, key));
    SealOne(Plain(LETTER.(id := None), now), Some("p"), OneKey(key));
    SpooledReadsBack(LETTER.(id := None), now, key);
    RetryLoses(b, OneKey(key), now);
  }

  /* ---------- a flush that lets the newer go first ---------- */

  /** A runner that refuses its first push. */
  function Hesitant(): Runner {
    FreshRunner(n => n > 0, n => false, n => 0)
  }

  lemma HesitantRefuses(now: int, key: KeyRing.Key)
    requires |key| == KeyRing.KEY_BYTES
    ensures var rs := Spooled(LETTER, now, key);
            PushSpool(Hesitant(), rs, OneKey(key)) == SpoolRun(Hesitant().(pushes := 1), rs, [],
              [Push(LETTER, false, true)])
  {
    SpooledReadsBack(LETTER, now, key);
  }

  lemma ThenItAccepts(b: Box, msgs: seq<Msg>, rings: Rings, now: int)
    requires b.runner == Some(Hesitant().(pushes := 1)) && msgs == [NEWER]
    ensures PushBuffer(b, msgs, rings, now).box == b.(runner := Some(Hesitant().(pushes := 2, queue := [NEWER])))
  {
    assert [] + [NEWER] == [NEWER];
    assert msgs[..|msgs| - 1] == [] && PushBuffer(b, [], rings, now) == Quiet(b);
  }

  /** A runner that refuses once gets the buffered message before the spooled one. */
  lemma FlushOvertakesSpool(now: int, key: KeyRing.Key)
    requires |key| == KeyRing.KEY_BYTES
    ensures var b := Agent(false, false, Some(Hesitant()), [Plain(NEWER, now)], Spooled(LETTER, now, key));
            var c := Flush(b, OneKey(key), now).box;
            QueueOf(c) == [NEWER] && c.spooled == b.spooled && c.spooled != []
  {
    var b := Agent(false, false, Some(Hesitant()), [Plain(NEWER, now)], Spooled(LETTER, now, key));
    HesitantRefuses(now, key);
    OneIsFresh(Plain(NEWER, now), now - INBOUND_TTL_MS);
    var c := b.(runner := Some(Hesitant().(pushes := 1)), buffer := [], listed := false);
    ThenItAccepts(c, Loads([Plain(NEWER, now)]), OneKey(key), now);
  }

  /* ---------- a retry from inside a push ---------- */

  /** A runner with these answers, which calls the queue hook once whenever it takes something. */
  function Answering(answers: seq<bool>): Runner {
    FreshRunner((n: nat) => n < |answers| && answers[n], n => false, n => 1)
  }

  lemma TwoAreFresh(x: Item, y: Item, cutoff: int)
    requires x.at >= cutoff && y.at >= cutoff
    ensures Loads(Fresh([x, y], cutoff)) == [x.msg, y.msg]
  {
    assert [x, y][..1] == [x] && [x][..0] == [] && Fresh([], cutoff) == [];
    assert Fresh([x], cutoff) == [x];
    assert Fresh([x, y], cutoff) == [x] + [y];
  }

  /** One record that opens, offered at push number `k`. */
  lemma {:induction false} OneRecord(r: Runner, rs: seq<Record>, m: Msg, k: nat, rings: Rings)
    requires |rs| == 1 && ReadRecord(rs[0], rings) == Some(m)
    ensures Retried(r, Course(k, rs), rings) == Course(k + 1, if Takes(r, m, k) then [] else rs)
    ensures ReachedOpen(After(r, k), rs, rings)
  {
    var q := After(r, k);
    assert rs == [rs[0]];
    ReadableOfOne(rs[0], rings);
    TakesLater(r, q, k, m, 0);
    TakesAllOfOne(q, m, 0);
    assert rs[1..] == [] && [m][1..] == [];
    assert Readable(rs, rings) == [m] && FirstRefused(q, [m], 0) == if Takes(q, m, 0) then 1 else 0;
    assert SpoolPushes(q, [m]) == 1;
    assert RestOf(q, rs, rings) == if Takes(q, m, 0) then [] else rs;
  }

  /** The first message of the buffer is taken at push 1, and the hook offers the record at push 2. */
  lemma {:induction false} RetriedInside(r: Runner, rs: seq<Record>, m: Msg, first: Msg, rings: Rings)
    requires |rs| == 1 && ReadRecord(rs[0], rings) == Some(m)
    requires !Takes(r, m, 0) && Takes(r, first, 1) && r.tells(r.pushes + 1) == 1
    ensures Passes(r, Course(1, rs), first, rings)
    ensures Onward(r, Course(1, rs), first, rings) == Course(3, if Takes(r, m, 2) then [] else rs)
  {
    OneRecord(r, rs, m, 2, rings);
    assert Retries(r, Course(2, rs), 0, rings) == Course(2, rs) && RetriesOpen(r, Course(2, rs), 0, rings);
  }

  lemma {:induction false} TwoPass(r: Runner, rs: seq<Record>, m: Msg, first: Msg, second: Msg, rings: Rings)
    requires |rs| == 1 && ReadRecord(rs[0], rings) == Some(m)
    requires !Takes(r, m, 0) && Takes(r, first, 1) && r.tells(r.pushes + 1) == r.tells(r.pushes + 3) == 1
    ensures AllPass(r, Course(1, rs), [first, second], rings) <==> Takes(r, second, 3)
  {
    var msgs, c := [first, second], Course(1, rs);
    assert msgs[..1] == [first] && [first][..0] == [];
    RetriedInside(r, rs, m, first, rings);
    assert CourseOf(r, c, [], rings) == c && AllPass(r, c, [], rings);
    var d := CourseOf(r, c, [first], rings);
    assert d == Onward(r, c, first, rings);
    if d.rest == [] {
      NothingToRetry(r, 4, 1, rings);
    } else {
      OneRecord(r, rs, m, 4, rings);
      assert RetriesOpen(r, Course(4, rs), 0, rings) && Retries(r, Course(4, rs), 0, rings) == Course(4, rs);
    }
  }

  /**
   * One record and two buffered messages: the hook retries the record from inside the first of them, at push 2,
   * so that the second is push 3. The third answer does not matter to the buffer, and the fourth decides.
   */
  lemma {:induction false} RetryTakesAPush(now: int, key: KeyRing.Key, answers: seq<bool>, digest: Digest)
    requires |key| == KeyRing.KEY_BYTES && |answers| == 4 && !answers[0] && answers[1]
    ensures var b := Agent(false, false, Some(Answering(answers)), [Plain(NEWER, now), Plain(NEWEST, now)],
                           Spooled(LETTER, now, key));
            NothingLost(b, DoFlush(now), Env(digest, OneKey(key))) <==> answers[3]
  {
    var rs, r := Spooled(LETTER, now, key), Answering(answers);
    var b := Agent(false, false, Some(r), [Plain(NEWER, now), Plain(NEWEST, now)], rs);
    SpooledReadsBack(LETTER, now, key);
    SealOne(Plain(LETTER, now), Some("p"), OneKey(key));
    LosesNothingIff(b, DoFlush(now), Env(digest, OneKey(key)));
    StuckOnOne(b, r, rs, now, key);
  }

  lemma {:induction false} StuckOnOne(b: Box, r: Runner, rs: seq<Record>, now: int, key: KeyRing.Key)
    requires |rs| == 1 && ReadRecord(rs[0], OneKey(key)) == Some(LETTER) && Readable(rs, OneKey(key)) == [LETTER]
    requires b == Agent(false, false, Some(r), [Plain(NEWER, now), Plain(NEWEST, now)], rs) && r.pushes == 0
    requires !Takes(r, LETTER, 0) && Takes(r, NEWER, 1) && r.tells(1) == r.tells(3) == 1
    ensures SafeFlush(b, OneKey(key), now) <==> Takes(r, NEWEST, 3)
  {
    TwoAreFresh(Plain(NEWER, now), Plain(NEWEST, now), now - INBOUND_TTL_MS);
    TakesAllOfOne(r, LETTER, 0);
    SafeWhenStuck(b, r, OneKey(key), now);
    OneRecord(r, rs, LETTER, 0, OneKey(key));
    assert After(r, 0) == r;
    assert FirstRefused(r, [LETTER], 0) == 0;
    TwoPass(r, rs, LETTER, NEWER, NEWEST, OneKey(key));
  }

  /* ---------- a commit that fails ---------- */

  /** The file of one line, and the list of one id, that an earlier process left. */
  method DiskLeft(now: int, key: KeyRing.Key) returns (disk: Disk)
    requires |key| == KeyRing.KEY_BYTES
    ensures fresh(disk) && disk.spool == Some([Filed("a", Spooled(LETTER, now, key)[0])]) &&
            disk.seen == Some(SeenFile(now, ["d1"]))
  {
    disk := new Disk();
    disk.spool := Some([Filed("a", Spooled(LETTER, now, key)[0])]);
    disk.seen := Some(SeenFile(now, ["d1"]));
  }

  lemma BootOfOne(file: seq<Filed>, now: int, key: KeyRing.Key, digest: Digest)
    requires |key| == KeyRing.KEY_BYTES && file == [Filed("a", Spooled(LETTER, now, key)[0])]
    ensures Boot(NEWBORN, file, "a", now, Env(digest, OneKey(key))).box ==
            NEWBORN.(spooled := Spooled(LETTER, now, key))
  {
    var env := Env(digest, OneKey(key));
    SealOne(Plain(LETTER, now), Some("p"), OneKey(key));
    assert file[..|file| - 1] == [] && Boot(NEWBORN, [], "a", now, env) == Quiet(NEWBORN);
    assert Boot(NEWBORN, file, "a", now, env) == Then(Quiet(NEWBORN), LoadOne(NEWBORN, file[0], "a", now, env));
    assert [] + [file[0].record] == Spooled(LETTER, now, key);
  }

  /** The agent is spawned paused: the message moves from the spool to the pause queue. */
  lemma SpawnedPaused(b: Box, c: Box, now: int, key: KeyRing.Key, r: Runner, digest: Digest)
    requires |key| == KeyRing.KEY_BYTES && b == NEWBORN.(spooled := Spooled(LETTER, now, key))
    requires c == Custody.Spawn(b, true, r, Some("p"), now, digest).box
    ensures var d := Custody.SpawnDone(c, OneKey(key), now).box;
            && d.spooled == [] && d.pauseHeld == [Plain(LETTER, now)] && d.known && d.project == Some("p")
            && QueueOf(d) == []
  {
    SpooledReadsBack(LETTER, now, key);
    assert Fresh([], now - INBOUND_TTL_MS) == [];
    assert Stamp([LETTER], now) + [] + [] == [Plain(LETTER, now)];
  }

  lemma WouldBeWritten(b: Box, now: int, key: KeyRing.Key)
    requires |key| == KeyRing.KEY_BYTES && b.pauseHeld == [Plain(LETTER, now)] && b.project == Some("p")
    ensures HeldId(b, now, "d1") && Records(b, now, OneKey(key)) != []
  {
    assert b.pauseHeld[0].msg.id == Some("d1");
    RecordedOrLost(b, now, OneKey(key), "d1");
    assert KeyReady(b.project, OneKey(key));
    SealedOrLost(Collected(b, now), b.project, OneKey(key));
  }

  /** A process that starts from what was left, before any agent is spawned. */
  method StartedFromDisk(now: int, key: KeyRing.Key, digest: Digest) returns (host: AgentHost, dedup: DeliveryDeduper)
    requires |key| == KeyRing.KEY_BYTES
    ensures host.Valid() && host.InSync() && dedup.Valid() && dedup.maxSeen == MAX_SEEN && host.rings == OneKey(key) &&
            host.filaRetida.digest == digest
    ensures host.View("a") == NEWBORN.(spooled := Spooled(LETTER, now, key)) &&
            host.disk.seen == Some(SeenFile(now, ["d1"]))
    ensures fresh(host) && fresh(host.inboundBuffer) && fresh(host.filaRetida) && fresh(host.disk)
  {
    var disk := DiskLeft(now, key);
    ghost var file := FileOf(disk.spool);
    host, dedup := BootProcess(disk, digest, OneKey(key), now, true);
    BootOfOne(file, now, key, digest);
    assert host.View("a").spooled == Get(host.spooled, "a");
  }

  /** Its agent is spawned paused: the message waits in the pause queue, and its record leaves the file. */
  method SpawnAndPause(host: AgentHost, now: int, key: KeyRing.Key, r: Runner)
    requires |key| == KeyRing.KEY_BYTES && host.Valid() && host.InSync() && host.rings == OneKey(key)
    requires host.View("a") == NEWBORN.(spooled := Spooled(LETTER, now, key))
    modifies host, host.inboundBuffer, host.filaRetida, host.disk`spool
    ensures host.Valid() && host.InSync() && host.rings == OneKey(key) && host.View("a").spooled == []
    ensures host.View("a").pauseHeld == [Plain(LETTER, now)] && host.View("a").project == Some("p")
    ensures QueueOf(host.View("a")) == []
  {
    ghost var b := host.View("a");
    host.Spawn("a", true, r, Some("p"), now);
    FinishSpawn(host, now, key, r, b);
  }

  method FinishSpawn(host: AgentHost, now: int, key: KeyRing.Key, ghost r: Runner, ghost b: Box)
    requires |key| == KeyRing.KEY_BYTES && host.Valid() && host.InSync() && host.rings == OneKey(key)
    requires b == NEWBORN.(spooled := Spooled(LETTER, now, key))
    requires host.View("a") == Custody.Spawn(b, true, r, Some("p"), now, host.filaRetida.digest).box
    modifies host, host.inboundBuffer, host.disk`spool
    ensures host.Valid() && host.InSync() && host.rings == OneKey(key) && host.View("a").spooled == []
    ensures host.View("a").pauseHeld == [Plain(LETTER, now)] && host.View("a").project == Some("p")
    ensures QueueOf(host.View("a")) == []
  {
    SpawnedPaused(b, host.View("a"), now, key, r, host.filaRetida.digest);
    host.SpawnDone("a", now, true);
  }

  /** Spawned again without a project. */
  method SpawnKeyless(host: AgentHost, now: int, r: Runner)
    requires host.Valid() && host.InSync()
    requires QueueOf(host.View("a")) == []
    modifies host, host.inboundBuffer, host.filaRetida, host.disk`spool
    ensures host.Valid() && host.InSync() && host.rings == old(host.rings) && host.View("a").project == None
    ensures host.View("a").spooled == old(host.View("a")).spooled
    ensures host.View("a").pauseHeld == old(host.View("a")).pauseHeld
  {
    host.Spawn("a", true, r, None, now);
  }

  /** A handover of the paused agent that leaves its message off the file and the old list on the disk. */
  method SwitchOfPaused(host: AgentHost, dedup: DeliveryDeduper, now: int, boot: int, key: KeyRing.Key, digest: Digest,
                        spoolOk: bool, seenOk: bool)
    returns (next: AgentHost, nextDedup: DeliveryDeduper)
    requires |key| == KeyRing.KEY_BYTES && now <= boot <= now + DELIVERY_SEEN_TTL_MS
    requires host.Valid() && host.InSync() && dedup.Valid() && dedup.maxSeen == MAX_SEEN && host.rings == OneKey(key)
    requires host.View("a").pauseHeld == [Plain(LETTER, now)] && host.View("a").spooled == []
    requires host.disk.seen == Some(SeenFile(now, ["d1"]))
    requires (!spoolOk && host.View("a").project == Some("p")) || (!seenOk && host.View("a").project == None)
    modifies host, host.inboundBuffer, host.filaRetida, host.disk
    ensures HeldId(old(host.View("a")), now, "d1") && next.Valid() &&
            FallsBetween(next.View("a"), nextDedup.history, boot, "d1")
  {
    OffTheFile(host.View("a"), now, key, spoolOk);
    next, nextDedup := SwitchThatLoses(host, dedup, now, boot, digest, OneKey(key), spoolOk, seenOk, "a", "d1");
  }

  lemma OffTheFile(b: Box, now: int, key: KeyRing.Key, spoolOk: bool)
    requires |key| == KeyRing.KEY_BYTES && b.pauseHeld == [Plain(LETTER, now)] && b.spooled == []
    requires (!spoolOk && b.project == Some("p")) || b.project == None
    ensures HeldId(b, now, "d1") && !OnFile(b, now, OneKey(key), spoolOk, "d1")
    ensures b.project == Some("p") ==> Records(b, now, OneKey(key)) != []
  {
    assert b.pauseHeld[0].msg.id == Some("d1");
    if b.project == Some("p") {
      WouldBeWritten(b, now, key);
    }
  }

  /**
   * A process starts with one message in its spool, which an earlier one had also written down as seen.
   * The agent is spawned paused, so the message waits in the pause queue and its record is taken off the
   * file. The next handover cannot write its spool. The process after it does not have the message, and
   * turns its replay away.
   */
  method FailedCommitLosesWaiting(now: int, boot: int, key: KeyRing.Key, r: Runner, digest: Digest)
    returns (ghost held: Box, next: AgentHost, nextDedup: DeliveryDeduper)
    requires |key| == KeyRing.KEY_BYTES && now <= boot <= now + DELIVERY_SEEN_TTL_MS
    ensures HeldId(held, now, "d1") && next.Valid() && FallsBetween(next.View("a"), nextDedup.history, boot, "d1")
  {
    var host, dedup := StartedFromDisk(now, key, digest);
    SpawnAndPause(host, now, key, r);
    held := host.View("a");
    next, nextDedup := SwitchOfPaused(host, dedup, now, boot, key, digest, false, true);
  }

  /**
   * The same start, but the agent is spawned again without a project, so that its message cannot be sealed, and
   * the spool is written while the list of seen ids is not: the old list stays and still has the id.
   */
  method UnwrittenListLosesKeyless(now: int, boot: int, key: KeyRing.Key, r: Runner, digest: Digest)
    returns (ghost held: Box, next: AgentHost, nextDedup: DeliveryDeduper)
    requires |key| == KeyRing.KEY_BYTES && now <= boot <= now + DELIVERY_SEEN_TTL_MS
    ensures HeldId(held, now, "d1") && next.Valid() && FallsBetween(next.View("a"), nextDedup.history, boot, "d1")
  {
    var host, dedup := StartedFromDisk(now, key, digest);
    SpawnAndPause(host, now, key, r);
    SpawnKeyless(host, now, r);
    held := host.View("a");
    next, nextDedup := SwitchOfPaused(host, dedup, now, boot, key, digest, true, false);
  }

  /* ---------- an acknowledgement without an id ---------- */

  /** A paused agent acknowledges a delivery without an id and drops it, if another without one waits. */
  lemma NamelessAckIsLost(now: int, r: Runner, rings: Rings)
    requires r.queue == [] && r.inFlight == None
    ensures var b := Agent(false, true, Some(r), [], []).(pauseHeld := [Plain(NEWER.(id := None), now)]);
            var (o, ok) := QueueDeliver(b, LETTER.(id := None), rings, now);
            ok && Held(b, LETTER.(id := None)) == 0 && Held(o.box, LETTER.(id := None)) == 0
  {
    var b := Agent(false, true, Some(r), [], []).(pauseHeld := [Plain(NEWER.(id := None), now)]);
    assert b.pauseHeld[0].msg.id == None;
    assert CarriesId(b.pauseHeld, None);
    NothingIsHeld(r, LETTER.(id := None));
    assert Loads(b.pauseHeld) == [NEWER.(id := None)];
  }

  /* ---------- empty associated data ---------- */

  /** What is sealed under empty associated data opens for nobody who holds the key. */
  lemma EmptyDataNeverOpens(key: KeyRing.Key, aad: Option<string>)
    requires |key| == KeyRing.KEY_BYTES
    ensures var ring := KeyRing.Ring(Some(key), [], []);
            var stored := KeyRing.EncryptForProject(ring, KeyRing.Text("x"), Some(""));
            stored.Some? && KeyRing.DecryptForProject(ring, stored.value, aad) == None
  {
    var ring := KeyRing.Ring(Some(key), [], []);
    KeyRing.OpensExactly(ring, key, KeyRing.Text("x"), Some(""), aad);
  }
}
