/**
 * Custody of one agent's undelivered messages (src/agent-host.ts): where each message is, and
 * what every operation of the host does with it. The runner is an abstract environment that
 * answers each push as it likes.
 */
module Custody {
  import opened Common
  import opened Messages
  import opened InboundDedup
  import opened QueueRetained
  import KeyRing

  const BUFFER_MAX: nat := 20

  /**
   * A runner. `accepts(n)` is its answer to its n-th push; `blocked(n)` says whether, at that point, it
   * refuses turns of members; `tells(n)` is how often, taking that push, it calls the host's queue hook
   * before it answers.
   */
  datatype Runner = Runner(queue: seq<Msg>, inFlight: Option<Msg>, pushes: nat, accepts: nat -> bool,
    blocked: nat -> bool, tells: nat -> nat)

  /** A spool record: metadata in clear, the message sealed. */
  datatype Record = Record(project: string, id: Option<string>, at: int, blob: KeyRing.Blob, pausa: bool, retido: bool)

  /** The project keys a process holds. */
  type Rings = map<string, KeyRing.Ring>

  /**
   * Everything the host holds for one agent, and what decides where its messages go. `known`
   * says that the agent has an entry; its runner, stop flag and project live there.
   */
  datatype Box = Box(
    draining: bool,
    paused: bool,
    known: bool,
    parado: bool,
    project: Option<string>,
    runner: Option<Runner>,
    listed: bool,
    buffer: seq<Item>,
    drainHeld: seq<Item>,
    pauseHeld: seq<Item>,
    spooled: seq<Record>,
    retained: seq<Item>)

  /** Where a message that is no longer held has gone. */
  datatype Fate =
    | Refused          // the runner turned it down and nobody kept it
    | GateRejected     // a member's turn that the runner may not take
    | Evicted          // pushed out by a cap
    | Duplicate        // its id was already held
    | Expired          // outlived a TTL
    | Unreadable       // a spool record that does not open
    | RunnerGone       // flushed towards a runner that no longer exists
    | PausedSpool      // read from the spool by a paused agent outside a flush
    | Removed          // taken out by the user
    | Forgotten        // the retained copy was discarded
    | Renamed          // re-held without its id
    | Finished         // its turn ended
    | Killed           // its turn or its queue died with the runner

  datatype Gone = Gone(fate: Fate, msg: Msg)

  /** A message offered to the runner, its answer, and whether it waited in the spool. */
  datatype Push = Push(msg: Msg, ok: bool, spooled: bool)

  /** One operation: the new state, the messages that entered, those that left, and the pushes made. */
  datatype Outcome = Outcome(box: Box, entered: seq<Msg>, gone: seq<Gone>, pushed: seq<Push>)

  function Quiet(b: Box): Outcome {
    Outcome(b, [], [], [])
  }

  function Fated(fate: Fate, msgs: seq<Msg>): seq<Gone> {
    seq(|msgs|, i requires 0 <= i < |msgs| => Gone(fate, msgs[i]))
  }

  function MsgsOf(gone: seq<Gone>): seq<Msg> {
    seq(|gone|, i requires 0 <= i < |gone| => gone[i].msg)
  }

  /** What a spool record carries; a record sealed by nobody counts as an empty message. */
  function RecordMsg(r: Record): Msg {
    if (r.blob.V2? || r.blob.V0?) && r.blob.plain.Letter? then Msg(r.blob.plain.content, r.id, r.blob.plain.member)
    else Msg("", r.id, false)
  }

  function RecordMsgs(rs: seq<Record>): seq<Msg> {
    seq(|rs|, i requires 0 <= i < |rs| => RecordMsg(rs[i]))
  }

  function QueueOf(b: Box): seq<Msg> {
    if b.runner.Some? then b.runner.value.queue else []
  }

  function InFlightOf(b: Box): seq<Msg> {
    if b.runner.Some? && b.runner.value.inFlight.Some? then [b.runner.value.inFlight.value] else []
  }

  function Count(msgs: seq<Msg>, m: Msg): nat {
    multiset(msgs)[m]
  }

  function WithRunner(r: Option<Runner>, m: Msg): nat {
    if r.None? then 0
    else Count(r.value.queue, m) + if r.value.inFlight == Some(m) then 1 else 0
  }

  /** How many copies of a message are held for the agent, wherever they are. */
  function Held(b: Box, m: Msg): nat {
    WithRunner(b.runner, m) + Count(Loads(b.buffer), m) + Count(Loads(b.drainHeld), m) +
    Count(Loads(b.pauseHeld), m) + Count(RecordMsgs(b.spooled), m) + Count(Loads(b.retained), m)
  }

  /** Nothing is lost and nothing invented: held before plus entered is held after plus gone. */
  ghost predicate Balanced(before: Box, o: Outcome, m: Msg) {
    Held(before, m) + Count(o.entered, m) == Held(o.box, m) + Count(MsgsOf(o.gone), m)
  }

  /* ---------- pushes ---------- */

  /** `pushUserMessage`. */
  function PushTo(r: Runner, m: Msg): (Runner, bool) {
    var ok := !(m.member && r.blocked(r.pushes)) && r.accepts(r.pushes);
    (r.(pushes := r.pushes + 1, queue := if ok then r.queue + [m] else r.queue), ok)
  }

  /** The host's own look at the gate, before a push. */
  predicate Gated(r: Runner, m: Msg) {
    m.member && r.blocked(r.pushes)
  }

  datatype Delivery = Delivery(runner: Runner, gone: seq<Gone>, pushed: seq<Push>)

  /** Pushes a list in order past the gate, ignoring the answers; nothing waits in the spool meanwhile. */
  function PushAll(r: Runner, msgs: seq<Msg>): Delivery {
    if msgs == [] then Delivery(r, [], [])
    else
      var d, m := PushAll(r, msgs[..|msgs| - 1]), msgs[|msgs| - 1];
      if Gated(d.runner, m) then d.(gone := d.gone + [Gone(GateRejected, m)])
      else
        var (r', ok) := PushTo(d.runner, m);
        Delivery(r', if ok then d.gone else d.gone + [Gone(Refused, m)], d.pushed + [Push(m, ok, false)])
  }

  /* ---------- holding ---------- */

  /** `segurarNaPausa`: behind or in front of the pause queue, oldest out above the cap. */
  function HoldAtPause(held: seq<Item>, items: seq<Item>, front: bool): seq<Item> {
    if items == [] then held else LastN(if front then items + held else held + items, CAP_POR_AGENTE)
  }

  function PushedOutOfPause(held: seq<Item>, items: seq<Item>, front: bool): seq<Item> {
    if items == [] then [] else CutOff(if front then items + held else held + items, CAP_POR_AGENTE)
  }

  /** `holdForDrain`: an id already held is dropped; the turn in flight goes in front. */
  function HoldForDrain(held: seq<Item>, item: Item, primeiro: bool): seq<Item> {
    if HasId(item.msg.id) && CarriesId(held, item.msg.id) then held
    else if primeiro then [item] + held
    else held + [item]
  }

  function HoldAllForDrain(held: seq<Item>, items: seq<Item>): seq<Item> {
    if items == [] then held
    else HoldForDrain(HoldAllForDrain(held, items[..|items| - 1]), items[|items| - 1], false)
  }

  function DrainDuplicates(held: seq<Item>, items: seq<Item>): seq<Item> {
    if items == [] then []
    else
      var init, last := items[..|items| - 1], items[|items| - 1];
      if HasId(last.msg.id) && CarriesId(HoldAllForDrain(held, init), last.msg.id)
      then DrainDuplicates(held, init) + [last] else DrainDuplicates(held, init)
  }

  /** Puts items into the retained queue. */
  function Retain(b: Box, novos: seq<Item>, now: int, digest: Digest): Outcome {
    var vivos := Vivos(b.retained, now);
    Outcome(b.(retained := Retained(vivos, novos, digest)), [],
            Fated(Expired, Loads(Stale(b.retained, now - TTL_ITEM_MS))) +
            Fated(Duplicate, Loads(Recusados(vivos, novos, digest))) +
            Fated(Evicted, Loads(Descartados(vivos, novos, digest))), [])
  }

  function WithSource(msgs: seq<Msg>, now: int, source: Source): seq<Item> {
    seq(|msgs|, i requires 0 <= i < |msgs| => Item(msgs[i], now, source, false, false))
  }

  /** The not-started messages of the runner go to the retained queue. */
  function RetainQueue(b: Box, source: Source, now: int, digest: Digest): Outcome {
    if QueueOf(b) == [] then Quiet(b)
    else Retain(b.(runner := Some(b.runner.value.(queue := []))), WithSource(QueueOf(b), now, source), now, digest)
  }

  /* ---------- the spool ---------- */

  function SpoolAad(project: string): string {
    "v2|" + project + "|daemon_reexec_spool|message"
  }

  /** `lerRegistroSpool`. */
  function ReadRecord(r: Record, rings: Rings): Option<Msg> {
    if r.project !in rings then None
    else match KeyRing.DecryptForProject(rings[r.project], r.blob, Some(SpoolAad(r.project)))
      case Some(Letter(content, member)) => Some(Msg(content, r.id, member))
      case _ => None
  }

  /** The records that open, as messages, in order. */
  function Readable(rs: seq<Record>, rings: Rings): seq<Msg> {
    if rs == [] then []
    else
      var m := ReadRecord(rs[0], rings);
      (if m.Some? then [m.value] else []) + Readable(rs[1..], rings)
  }

  function UnreadableMsgs(rs: seq<Record>, rings: Rings): seq<Msg> {
    if rs == [] then []
    else (if ReadRecord(rs[0], rings).None? then [RecordMsg(rs[0])] else []) + UnreadableMsgs(rs[1..], rings)
  }

  datatype SpoolRun = SpoolRun(runner: Runner, rest: seq<Record>, gone: seq<Gone>, pushed: seq<Push>)

  /**
   * Delivers records in order until the runner refuses one; that one and all behind it stay. They are off the
   * host's map meanwhile, so a call of the hook finds nothing to retry.
   */
  function PushSpool(r: Runner, rs: seq<Record>, rings: Rings): SpoolRun
    decreases |rs|
  {
    if rs == [] then SpoolRun(r, [], [], [])
    else match ReadRecord(rs[0], rings)
      case None =>
        var s := PushSpool(r, rs[1..], rings);
        s.(gone := [Gone(Unreadable, RecordMsg(rs[0]))] + s.gone)
      case Some(m) =>
        var (r', ok) := PushTo(r, m);
        if ok then
          var s := PushSpool(r', rs[1..], rings);
          s.(pushed := [Push(m, true, true)] + s.pushed)
        else SpoolRun(r', rs, [], [Push(m, false, true)])
  }

  function WithoutIds(msgs: seq<Msg>): seq<Msg> {
    seq(|msgs|, i requires 0 <= i < |msgs| => msgs[i].(id := None))
  }

  /**
   * `deliverSpoolFor`. A paused agent gets the messages back as items to hold; a draining one
   * holds them again without their ids; otherwise they go to the runner.
   */
  function DeliverSpool(b: Box, rings: Rings, now: int): (Outcome, seq<Item>) {
    if b.spooled == [] || b.runner.None? then (Quiet(b), [])
    else
      var readable := Readable(b.spooled, rings);
      var unreadable := Fated(Unreadable, UnreadableMsgs(b.spooled, rings));
      if b.paused then
        (Outcome(b.(spooled := []), [], unreadable, []), Stamp(readable, now))
      else if b.draining then
        (Outcome(b.(spooled := [], drainHeld := b.drainHeld + Stamp(WithoutIds(readable), now)),
                 WithoutIds(readable), unreadable + Fated(Renamed, readable), []), [])
      else
        var s := PushSpool(b.runner.value, b.spooled, rings);
        (Outcome(b.(runner := Some(s.runner), spooled := s.rest), [], s.gone, s.pushed), [])
  }

  /* ---------- the operations ---------- */

  /** What a push into the pre-spawn buffer throws out. */
  function BufferLosses(buffer: seq<Item>, m: Msg, item: Item, now: int): seq<Gone> {
    var live := Fresh(buffer, now - INBOUND_TTL_MS);
    Fated(Expired, Loads(Stale(buffer, now - INBOUND_TTL_MS))) +
    if HasId(m.id) && CarriesId(live, m.id) then [Gone(Duplicate, m)]
    else Fated(Evicted, Loads(CutOff(live + [StampArrival(item, now)], BUFFER_MAX)))
  }

  /** The pre-spawn buffer takes the message, and the agent is listed as having one. */
  function BufferUp(b: Box, m: Msg, item: Item, now: int): Outcome {
    Outcome(b.(listed := true, buffer := Pushed(b.buffer, item, now, INBOUND_TTL_MS, BUFFER_MAX)), [m],
            BufferLosses(b.buffer, m, item, now), [])
  }

  /** `sendMessageInner`. */
  function Send(b: Box, m: Msg, now: int, digest: Digest): Outcome {
    if b.paused then
      Outcome(b.(pauseHeld := HoldAtPause(b.pauseHeld, [Plain(m, now)], false)), [m],
              Fated(Evicted, Loads(PushedOutOfPause(b.pauseHeld, [Plain(m, now)], false))), [])
    else if m.member && (b.draining || b.runner.None? || b.spooled != [] || b.parado || Gated(b.runner.value, m)) then
      Outcome(b, [m], [Gone(GateRejected, m)], [])
    else if b.draining then
      Outcome(b.(drainHeld := HoldForDrain(b.drainHeld, Plain(m, now), false)), [m],
              if HasId(m.id) && CarriesId(b.drainHeld, m.id) then [Gone(Duplicate, m)] else [], [])
    else if b.runner.None? || b.spooled != [] then BufferUp(b, m, Plain(m.(member := false), now), now)
    else if b.parado then
      Retain(b, [Item(m.(member := false), now, Inbound, false, false)], now, digest).(entered := [m])
    else
      var (r, ok) := PushTo(b.runner.value, m);
      Outcome(b.(runner := Some(r)), [m], if ok then [] else [Gone(Refused, m)], [Push(m, ok, false)])
  }

  /** Runs a second operation after a first one. */
  function Then(first: Outcome, second: Outcome): Outcome {
    Outcome(second.box, first.entered + second.entered, first.gone + second.gone, first.pushed + second.pushed)
  }

  /** `onRunnerQueueChanged`: retries the spool, and drops what a paused agent gets back from it. */
  function QueueChanged(b: Box, rings: Rings, now: int): Outcome {
    var (spool, held) := DeliverSpool(b, rings, now);
    spool.(gone := spool.gone + Fated(PausedSpool, Loads(held)))
  }

  /** The hook, called `times` times from inside a push. */
  function Told(b: Box, times: nat, rings: Rings, now: int): Outcome {
    if times == 0 then Quiet(b)
    else
      var before := Told(b, times - 1, rings, now);
      Then(before, QueueChanged(before.box, rings, now))
  }

  /** How often the runner calls the hook when it is offered this message now. */
  function Calls(r: Runner, m: Msg): nat {
    if PushTo(r, m).1 then r.tells(r.pushes) else 0
  }

  /** One item of `queueDeliver`; the flag says whether it is acknowledged to the server. */
  function QueueDeliver(b: Box, m: Msg, rings: Rings, now: int): (Outcome, bool) {
    if b.runner.None? then (Quiet(b), false)
    else if b.paused then
      if CarriesId(b.pauseHeld, m.id) then (Outcome(b, [m], [Gone(Duplicate, m)], []), true)
      else
        (Outcome(b.(pauseHeld := HoldAtPause(b.pauseHeld, [Plain(m, now)], false)), [m],
                 Fated(Evicted, Loads(PushedOutOfPause(b.pauseHeld, [Plain(m, now)], false))), []), true)
    else if Gated(b.runner.value, m) then (Quiet(b), false)
    else
      var (r, ok) := PushTo(b.runner.value, m);
      var c := b.(runner := Some(r));
      var hook := Told(c, Calls(b.runner.value, m), rings, now);
      (Then(Outcome(c, if ok then [m] else [], [], [Push(m, ok, false)]), hook), ok)
  }

  /** `tirarDoRunnerParaPausa`: what the runner has not started goes in front of the pause queue. */
  function TakeToPause(b: Box, now: int): Outcome {
    if QueueOf(b) == [] then Quiet(b)
    else
      var items := Stamp(QueueOf(b), now);
      Outcome(b.(runner := Some(b.runner.value.(queue := [])), pauseHeld := HoldAtPause(b.pauseHeld, items, true)), [],
              Fated(Evicted, Loads(PushedOutOfPause(b.pauseHeld, items, true))), [])
  }

  function Pause(b: Box, now: int): Outcome {
    if b.paused then Quiet(b) else TakeToPause(b.(paused := true), now)
  }

  /** `liberarPausa`: delivers the pause queue when there is an apt runner and no older spool. */
  function Liberar(b: Box): Outcome {
    if b.paused || b.pauseHeld == [] || b.runner.None? || b.parado || b.spooled != [] then Quiet(b)
    else if b.draining then
      Outcome(b.(pauseHeld := [], drainHeld := HoldAllForDrain(b.drainHeld, b.pauseHeld)), [],
              Fated(Duplicate, Loads(DrainDuplicates(b.drainHeld, b.pauseHeld))), [])
    else
      var d := PushAll(b.runner.value, Loads(b.pauseHeld));
      Outcome(b.(runner := Some(d.runner), pauseHeld := []), [], d.gone, d.pushed)
  }

  function Resume(b: Box): Outcome {
    if !b.paused then Quiet(b) else Liberar(b.(paused := false))
  }

  /** One message of the buffer, and what the hook does meanwhile; a refusal is ignored. */
  function PushBuffered(b: Box, m: Msg, rings: Rings, now: int): (o: Outcome)
    requires b.runner.Some?
  {
    var (r, ok) := PushTo(b.runner.value, m);
    var c := b.(runner := Some(r));
    Then(Outcome(c, [], if ok then [] else [Gone(Refused, m)], [Push(m, ok, false)]),
         Told(c, Calls(b.runner.value, m), rings, now))
  }

  /** The messages of the buffer, in order, as long as there is a runner. */
  function PushBuffer(b: Box, msgs: seq<Msg>, rings: Rings, now: int): Outcome {
    if msgs == [] then Quiet(b)
    else
      var before := PushBuffer(b, msgs[..|msgs| - 1], rings, now);
      if before.box.runner.None? then before
      else Then(before, PushBuffered(before.box, msgs[|msgs| - 1], rings, now))
  }

  /** `flushInboundBuffer`, after its spool part: `fromSpool` is what a paused agent got back. */
  function FlushBuffer(b: Box, fromSpool: seq<Item>, rings: Rings, now: int): Outcome {
    var pending := Fresh(b.buffer, now - INBOUND_TTL_MS);
    var expired := Fated(Expired, Loads(Stale(b.buffer, now - INBOUND_TTL_MS)));
    var c := b.(buffer := [], listed := false);
    if b.paused then
      Outcome(c.(pauseHeld := HoldAtPause(b.pauseHeld, fromSpool + pending, true)), [],
              expired + Fated(Evicted, Loads(PushedOutOfPause(b.pauseHeld, fromSpool + pending, true))), [])
    else if b.draining then
      Outcome(c.(drainHeld := HoldAllForDrain(b.drainHeld, pending)), [],
              expired + Fated(Duplicate, Loads(DrainDuplicates(b.drainHeld, pending))), [])
    else
      var freed := Liberar(c);
      if freed.box.runner.None? then Then(Outcome(c, [], expired + Fated(RunnerGone, Loads(pending)), []), freed)
      else Then(Then(Outcome(c, [], expired, []), freed), PushBuffer(freed.box, Loads(pending), rings, now))
  }

  function Flush(b: Box, rings: Rings, now: int): Outcome {
    var (spool, held) := DeliverSpool(b, rings, now);
    Then(spool, FlushBuffer(spool.box, held, rings, now))
  }

  /** The turn in flight dies with a stopped runner. */
  function KillTurn(b: Box): Outcome {
    if InFlightOf(b) == [] then Quiet(b)
    else Outcome(b.(runner := Some(b.runner.value.(inFlight := None))), [], Fated(Killed, InFlightOf(b)), [])
  }

  /** `stop`: the queue is retained for the next start. */
  function Stop(b: Box, now: int, digest: Digest): Outcome {
    if b.runner.None? then Quiet(b)
    else
      var killed := KillTurn(b.(parado := true));
      Then(killed, RetainQueue(killed.box, FromStop, now, digest))
  }

  function FreshRunner(accepts: nat -> bool, blocked: nat -> bool, tells: nat -> nat): Runner {
    Runner([], None, 0, accepts, blocked, tells)
  }

  /** The agent's entry with a new runner in it. */
  function Replaced(b: Box, project: Option<string>, r: Runner): Box {
    b.(known := true, parado := false, project := project, runner := Some(r.(queue := [], inFlight := None)))
  }

  /** A spawn that needs a new runner: the old one's queue is retained and passes to the new one's agent. */
  function Spawn(b: Box, paused: bool, r: Runner, project: Option<string>, now: int, digest: Digest): Outcome {
    var c := b.(paused := paused);
    var killed := KillTurn(c);
    var retained := RetainQueue(killed.box, Replace, now, digest);
    Then(Then(killed, retained), Quiet(Replaced(retained.box, project, r)))
  }

  /** A spawn that finds its runner alive only restores the pause state. */
  function Reconnect(b: Box, paused: bool, now: int): Outcome {
    var c := b.(paused := paused);
    if b.runner.None? then Quiet(c) else if paused then TakeToPause(c, now) else Liberar(c)
  }

  /** An agent with an entry is no longer stopped. */
  function Started(b: Box): Box {
    if b.known then b.(parado := false) else b
  }

  /** The end of a spawn: the agent is no longer stopped, and what waited is flushed. */
  function SpawnDone(b: Box, rings: Rings, now: int): Outcome {
    Flush(Started(b), rings, now)
  }

  function TakenOut(b: Box, m: Msg): Outcome {
    Outcome(b, [], [Gone(Removed, m)], [])
  }

  /** The first holder that has the message loses it: runner, buffer, drain queue, pause queue. */
  function RemoveAt(b: Box, q: nat, i: nat, d: nat, p: nat): Outcome {
    if q < |QueueOf(b)| then TakenOut(b.(runner := Some(b.runner.value.(queue := Without(QueueOf(b), q)))),
      QueueOf(b)[q])
    else if i < |b.buffer| then TakenOut(b.(buffer := Without(b.buffer, i)), b.buffer[i].msg)
    else if d < |b.drainHeld| then TakenOut(b.(drainHeld := Without(b.drainHeld, d)), b.drainHeld[d].msg)
    else if p < |b.pauseHeld| then TakenOut(b.(pauseHeld := Without(b.pauseHeld, p)), b.pauseHeld[p].msg)
    else Quiet(b)
  }

  /** `removerDaFilaViva`: only the first message with the id goes. */
  function Remove(b: Box, id: string): Outcome {
    RemoveAt(b, FirstWithId(QueueOf(b), id), FirstWithId(Loads(b.buffer), id),
             FirstWithId(Loads(b.drainHeld), id), FirstWithId(Loads(b.pauseHeld), id))
  }

  /** `startDrain`, this agent's part. */
  function StartDrain(b: Box, now: int): Outcome {
    var c := b.(draining := true);
    if b.runner.None? then Quiet(c)
    else
      var items := Stamp(QueueOf(b), now);
      Outcome(c.(runner := Some(b.runner.value.(queue := [])), drainHeld := HoldAllForDrain(b.drainHeld, items)), [],
              Fated(Duplicate, Loads(DrainDuplicates(b.drainHeld, items))), [])
  }

  /** `holdInFlightForShutdown`, this agent's part. */
  function HoldInFlight(b: Box, now: int): Outcome {
    if InFlightOf(b) == [] then Quiet(b)
    else
      var m := InFlightOf(b)[0];
      Outcome(b.(runner := Some(b.runner.value.(inFlight := None)),
        drainHeld := HoldForDrain(b.drainHeld, Plain(m, now), true)), [],
              if HasId(m.id) && CarriesId(b.drainHeld, m.id) then [Gone(Duplicate, m)] else [], [])
  }

  /** An idle runner turns the head of its queue into the turn in flight. */
  function StartTurn(b: Box): Outcome {
    if QueueOf(b) == [] || InFlightOf(b) != [] then Quiet(b)
    else Quiet(b.(runner := Some(b.runner.value.(queue := QueueOf(b)[1..], inFlight := Some(QueueOf(b)[0])))))
  }

  function FinishTurn(b: Box): Outcome {
    if InFlightOf(b) == [] then Quiet(b)
    else Outcome(b.(runner := Some(b.runner.value.(inFlight := None))), [], Fated(Finished, InFlightOf(b)), [])
  }

  /** A runner that exits takes with it whatever it still held. */
  function Exit(b: Box): Outcome {
    if b.runner.None? then Quiet(b)
    else Outcome(b.(runner := None), [], Fated(Killed, QueueOf(b) + InFlightOf(b)), [])
  }

  /** The runner changes its mind about future pushes. */
  function ChangeRunner(b: Box, accepts: nat -> bool, blocked: nat -> bool, tells: nat -> nat): Outcome {
    if b.runner.None? then Quiet(b)
    else Quiet(b.(runner := Some(b.runner.value.(accepts := accepts, blocked := blocked, tells := tells))))
  }

  function ExpireRetained(b: Box, now: int): Outcome {
    Outcome(b.(retained := Vivos(b.retained, now)), [], Fated(Expired, Loads(Stale(b.retained, now - TTL_ITEM_MS))), [])
  }

  function ExpireBuffer(b: Box, now: int): Outcome {
    Outcome(b.(buffer := Fresh(b.buffer, now - INBOUND_TTL_MS)), [],
            Fated(Expired, Loads(Stale(b.buffer, now - INBOUND_TTL_MS))), [])
  }

  function Forget(b: Box): Outcome {
    Outcome(b.(retained := []), [], Fated(Forgotten, Loads(b.retained)), [])
  }

  /** Everything that can happen to an agent; the last group is the runner and time at work. */
  datatype Op =
    | DoSend(m: Msg, now: int)
    | DoQueueDeliver(m: Msg, now: int)
    | DoPause(now: int)
    | DoResume
    | DoFlush(now: int)
    | DoStop(now: int)
    | DoSpawn(paused: bool, runner: Runner, project: Option<string>, now: int)
    | DoReconnect(paused: bool, now: int)
    | DoSpawnDone(now: int)
    | DoQueueChanged(now: int)
    | DoRemove(id: string)
    | DoStartDrain(now: int)
    | DoHoldInFlight(now: int)
    | DoForget
    | RunnerRetains(source: Source, now: int)
    | RunnerStarts
    | RunnerFinishes
    | RunnerExits
    | RunnerChanges(accepts: nat -> bool, blocked: nat -> bool, tells: nat -> nat)
    | RetainedExpires(now: int)
    | BufferExpires(now: int)

  /** The digest of the retained queue and the keys the process holds. */
  datatype Env = Env(digest: Digest, rings: Rings)

  function Step(b: Box, op: Op, env: Env): Outcome {
    match op
    case DoSend(m, now) => Send(b, m, now, env.digest)
    case DoQueueDeliver(m, now) => QueueDeliver(b, m, env.rings, now).0
    case DoPause(now) => Pause(b, now)
    case DoResume => Resume(b)
    case DoFlush(now) => Flush(b, env.rings, now)
    case DoStop(now) => Stop(b, now, env.digest)
    case DoSpawn(paused, runner, project, now) => Spawn(b, paused, runner, project, now, env.digest)
    case DoReconnect(paused, now) => Reconnect(b, paused, now)
    case DoSpawnDone(now) => SpawnDone(b, env.rings, now)
    case DoQueueChanged(now) => QueueChanged(b, env.rings, now)
    case DoRemove(id) => Remove(b, id)
    case DoStartDrain(now) => StartDrain(b, now)
    case DoHoldInFlight(now) => HoldInFlight(b, now)
    case DoForget => Forget(b)
    case RunnerRetains(source, now) => RetainQueue(b, source, now, env.digest)
    case RunnerStarts => StartTurn(b)
    case RunnerFinishes => FinishTurn(b)
    case RunnerExits => Exit(b)
    case RunnerChanges(accepts, blocked, tells) => ChangeRunner(b, accepts, blocked, tells)
    case RetainedExpires(now) => ExpireRetained(b, now)
    case BufferExpires(now) => ExpireBuffer(b, now)
  }

  function RunOps(b: Box, ops: seq<Op>, env: Env): Outcome {
    if ops == [] then Quiet(b)
    else
      var before := RunOps(b, ops[..|ops| - 1], env);
      Then(before, Step(before.box, ops[|ops| - 1], env))
  }
}
