/**
 * Order across a restart: what waited in the spool is taken first. Exactly which operations let something
 * newer overtake it, and whole runs of the others.
 */
module CustodySpool {
  import opened Common
  import opened Messages
  import opened InboundDedup
  import opened QueueRetained
  import opened Custody
  import opened CustodyLaws
  import opened CustodyOrder
  import opened CustodyPushes

  /** No message of the spool is taken behind a newer one. */
  ghost predicate InOrder(pushed: seq<Push>) {
    pushed == [] ||
    var init, last := pushed[..|pushed| - 1], pushed[|pushed| - 1];
    InOrder(init) && (last.ok && last.spooled ==> Taken(init, false) == [])
  }

  /**
   * What was readable in the spool has been taken, in order and before anything newer, or still waits; and
   * as long as something readable waits, nothing newer has been taken.
   */
  ghost predicate SpoolFirst(before: seq<Record>, after: seq<Record>, pushed: seq<Push>, rings: Rings) {
    && Taken(pushed, true) + Readable(after, rings) == Readable(before, rings)
    && InOrder(pushed)
    && (Readable(after, rings) != [] ==> Taken(pushed, false) == [])
  }

  lemma {:induction false} InOrderOfAppend(a: seq<Push>, b: seq<Push>)
    ensures InOrder(a + b) <==> InOrder(a) && InOrder(b) && (Taken(b, true) == [] || Taken(a, false) == [])
    decreases |b|
  {
    if b == [] {
      assert a + b == a;
    } else {
      var init, last := b[..|b| - 1], b[|b| - 1];
      InOrderOfAppend(a, init);
      assert (a + b)[..|a + b| - 1] == a + init && (a + b)[|a + b| - 1] == last;
      TakenOfAppend(a, init, false);
    }
  }

  /** Where only one sort is taken, order is no question. */
  lemma {:induction false} OneSortInOrder(pushed: seq<Push>)
    requires Taken(pushed, true) == [] || Taken(pushed, false) == []
    ensures InOrder(pushed)
    decreases |pushed|
  {
    if pushed != [] {
      OneSortInOrder(pushed[..|pushed| - 1]);
    }
  }

  lemma Prefixes(p: seq<Msg>, mid: seq<Msg>, q: seq<Msg>, end: seq<Msg>)
    requires q + end == mid
    ensures p + q + end == p + mid && (end != [] ==> mid != []) && (mid == [] ==> q == [])
  {
    assert p + q + end == p + (q + end);
  }

  lemma SpoolFirstThen(a: seq<Record>, b: seq<Record>, c: seq<Record>, p: seq<Push>, q: seq<Push>, rings: Rings)
    requires SpoolFirst(a, b, p, rings) && SpoolFirst(b, c, q, rings)
    ensures SpoolFirst(a, c, p + q, rings)
  {
    TakenOfAppend(p, q, true);
    TakenOfAppend(p, q, false);
    InOrderOfAppend(p, q);
    Prefixes(Taken(p, true), Readable(b, rings), Taken(q, true), Readable(c, rings));
  }

  lemma FifoIsFirst(r: Runner, rs: seq<Record>, s: SpoolRun, rings: Rings)
    requires Fifo(r, rs, s, rings)
    ensures SpoolFirst(rs, s.rest, s.pushed, rings) && Taken(s.pushed, false) == []
    ensures s.rest != [] ==> Readable(s.rest, rings) != []
  {
    var k := |rs| - |s.rest|;
    assert rs == rs[..k] + rs[k..];
    ReadableOfAppend(rs[..k], rs[k..], rings);
    OneSortInOrder(s.pushed);
  }

  /** One delivery to a runner takes the spool in order, and nothing else. */
  lemma SpoolFirstOfDelivery(b: Box, rings: Rings, now: int)
    requires !b.paused && !b.draining
    ensures var (o, held) := DeliverSpool(b, rings, now);
            && SpoolFirst(b.spooled, o.box.spooled, o.pushed, rings) && Taken(o.pushed, false) == [] && held == []
            && (b.runner.Some? && o.box.spooled != [] ==> Readable(o.box.spooled, rings) != [])
  {
    if b.spooled != [] && b.runner.Some? {
      SpoolIsFifo(b.runner.value, b.spooled, rings);
      FifoIsFirst(b.runner.value, b.spooled, PushSpool(b.runner.value, b.spooled, rings), rings);
    } else {
      assert [] + Readable(b.spooled, rings) == Readable(b.spooled, rings);
    }
  }

  lemma {:induction false} SpoolFirstOfHook(b: Box, times: nat, rings: Rings, now: int)
    requires !b.paused && !b.draining
    ensures SpoolFirst(b.spooled, Told(b, times, rings, now).box.spooled, Told(b, times, rings, now).pushed, rings)
    decreases times
  {
    if times == 0 {
      assert [] + Readable(b.spooled, rings) == Readable(b.spooled, rings);
    } else {
      var before := Told(b, times - 1, rings, now);
      SpoolFirstOfHook(b, times - 1, rings, now);
      ToldSteady(b, times - 1, rings, now);
      SpoolFirstOfDelivery(before.box, rings, now);
      SpoolFirstThen(b.spooled, before.box.spooled, QueueChanged(before.box, rings, now).box.spooled,
                     before.pushed, QueueChanged(before.box, rings, now).pushed, rings);
    }
  }

  /** A step that leaves the spool alone is in order iff nothing readable waits there or nothing is taken. */
  lemma UntouchedIff(rs: seq<Record>, pushed: seq<Push>, rings: Rings)
    requires Taken(pushed, true) == []
    ensures SpoolFirst(rs, rs, pushed, rings) <==> Readable(rs, rings) == [] || Taken(pushed, false) == []
  {
    OneSortInOrder(pushed);
    assert [] + Readable(rs, rings) == Readable(rs, rings);
  }

  /* ---------- what overtakes ---------- */

  /** Something newer was taken, and nothing of the spool unless behind it. */
  ghost predicate Newer(pushed: seq<Push>) {
    Taken(pushed, false) != [] && (Taken(pushed, true) != [] ==> !InOrder(pushed))
  }

  lemma NewerThen(p: seq<Push>, q: seq<Push>)
    requires Newer(p) || (Newer(q) && Taken(p, true) == [])
    ensures Newer(p + q)
  {
    TakenOfAppend(p, q, true);
    TakenOfAppend(p, q, false);
    InOrderOfAppend(p, q);
  }

  /** Where something readable waited, that is out of order whatever is delivered afterwards. */
  lemma NewerIsOutOfOrder(a: seq<Record>, b: seq<Record>, c: seq<Record>, p: seq<Push>, q: seq<Push>, rings: Rings)
    requires SpoolFirst(a, b, p, rings) && Readable(b, rings) != [] && Newer(q)
    ensures !SpoolFirst(a, c, p + q, rings)
  {
    TakenOfAppend(p, q, true);
    TakenOfAppend(p, q, false);
    InOrderOfAppend(p, q);
    if Taken(q, true) == [] && Readable(c, rings) == [] {
      assert |Taken(p, true) + Taken(q, true) + Readable(c, rings)| < |Taken(p, true) + Readable(b, rings)|;
    }
  }

  /** A newer message that is taken, and then what the hook delivers. */
  lemma TakenIsNewer(m: Msg, hook: seq<Push>)
    ensures Newer([Push(m, true, false)] + hook)
  {
    var one := [Push(m, true, false)];
    TakenOfOne(Push(m, true, false), true);
    TakenOfOne(Push(m, true, false), false);
    assert one[..0] == [] && InOrder(one);
    assert Newer(one);
    NewerThen(one, hook);
  }

  lemma PushBufferedNewer(b: Box, m: Msg, rings: Rings, now: int)
    requires b.runner.Some?
    ensures var o := PushBuffered(b, m, rings, now);
            NewerUnless(!Takes(b.runner.value, m, 0), o.pushed)
  {
    assert b.runner.value.pushes + 0 == b.runner.value.pushes;
    if Takes(b.runner.value, m, 0) {
      TakenIsNewer(m, Told(Tried(b, m).box, Calls(b.runner.value, m), rings, now).pushed);
    } else {
      TakenOfOne(Push(m, false, false), true);
      TakenOfOne(Push(m, false, false), false);
      assert [Push(m, false, false)] + [] == [Push(m, false, false)];
    }
  }

  /** Nothing was taken, or something newer before anything of the spool. */
  ghost predicate NewerUnless(nothing: bool, pushed: seq<Push>) {
    if nothing then Taken(pushed, true) == [] && Taken(pushed, false) == [] else Newer(pushed)
  }

  lemma NewerUnlessThen(first: bool, p: seq<Push>, second: bool, q: seq<Push>)
    requires NewerUnless(first, p) && NewerUnless(second, q)
    ensures NewerUnless(first && second, p + q)
  {
    TakenOfAppend(p, q, true);
    TakenOfAppend(p, q, false);
    if !first || !second {
      NewerThen(p, q);
    }
  }

  /** The buffer lets the spool be iff the runner takes none of it; else something newer is taken first. */
  lemma {:induction false} PushBufferNewer(r: Runner, b: Box, c: Course, msgs: seq<Msg>, rings: Rings, now: int)
    requires On(r, b, c)
    ensures NewerUnless(TakesNone(r, msgs, c.n), PushBuffer(b, msgs, rings, now).pushed)
    decreases |msgs|
  {
    if msgs != [] {
      var init := msgs[..|msgs| - 1];
      PushBufferNewer(r, b, c, init, rings, now);
      var before := UpToLast(r, b, c, msgs, rings, now);
      OneMoreNewer(r, before, c, CourseOf(r, c, init, rings), msgs, rings, now);
    }
  }

  lemma UpToLast(r: Runner, b: Box, c: Course, msgs: seq<Msg>, rings: Rings, now: int) returns (before: Outcome)
    requires On(r, b, c) && msgs != []
    ensures before == PushBuffer(b, msgs[..|msgs| - 1], rings, now)
    ensures On(r, before.box, CourseOf(r, c, msgs[..|msgs| - 1], rings))
    ensures PushBuffer(b, msgs, rings, now).pushed ==
            before.pushed + PushBuffered(before.box, msgs[|msgs| - 1], rings, now).pushed
    ensures TakesNone(r, msgs[..|msgs| - 1], c.n) ==>
              CourseOf(r, c, msgs[..|msgs| - 1], rings) == Course(c.n + |msgs| - 1, c.rest)
  {
    before := PushBuffer(b, msgs[..|msgs| - 1], rings, now);
    PushBufferExact(r, b, c, msgs[..|msgs| - 1], rings, now);
    if TakesNone(r, msgs[..|msgs| - 1], c.n) {
      NothingTaken(r, c, msgs[..|msgs| - 1], rings);
    }
  }

  lemma OneMoreNewer(r: Runner, before: Outcome, c: Course, d: Course, msgs: seq<Msg>, rings: Rings, now: int)
    requires msgs != [] && On(r, before.box, d) && NewerUnless(TakesNone(r, msgs[..|msgs| - 1], c.n), before.pushed)
    requires TakesNone(r, msgs[..|msgs| - 1], c.n) ==> d == Course(c.n + |msgs| - 1, c.rest)
    ensures NewerUnless(TakesNone(r, msgs, c.n),
              before.pushed + PushBuffered(before.box, msgs[|msgs| - 1], rings, now).pushed)
  {
    var last := msgs[|msgs| - 1];
    TakesNoneOfLast(r, msgs, c.n);
    if TakesNone(r, msgs[..|msgs| - 1], c.n) {
      NextIsNewer(r, before, d.n, d.rest, last, rings, now);
    } else {
      NewerThen(before.pushed, PushBuffered(before.box, last, rings, now).pushed);
    }
  }

  /** As long as nothing is taken, the course is that many pushes further. */
  lemma Untaken(r: Runner, b: Box, c: Course, msgs: seq<Msg>, rings: Rings, now: int)
    requires On(r, b, c) && TakesNone(r, msgs, c.n)
    ensures On(r, PushBuffer(b, msgs, rings, now).box, Course(c.n + |msgs|, c.rest))
  {
    PushBufferExact(r, b, c, msgs, rings, now);
    NothingTaken(r, c, msgs, rings);
  }

  lemma NextIsNewer(r: Runner, before: Outcome, n: nat, rest: seq<Record>, last: Msg, rings: Rings, now: int)
    requires On(r, before.box, Course(n, rest)) && NewerUnless(true, before.pushed)
    ensures NewerUnless(!Takes(r, last, n), before.pushed + PushBuffered(before.box, last, rings, now).pushed)
  {
    TakesLater(r, before.box.runner.value, n, last, 0);
    PushBufferedNewer(before.box, last, rings, now);
    NewerUnlessThen(true, before.pushed, !Takes(r, last, n), PushBuffered(before.box, last, rings, now).pushed);
  }

  /* ---------- a flush may let the buffer overtake the spool ---------- */

  /**
   * A flush hands over newer messages while the spool waits: the runner turns down something readable of the
   * spool, at its first pushes, and takes something that is fresh in the buffer, at the pushes that follow.
   */
  ghost predicate FlushOvertakes(b: Box, rings: Rings, now: int)
    requires b.runner.Some?
  {
    var r, readable := b.runner.value, Readable(b.spooled, rings);
    !TakesAll(r, readable, 0) &&
    !TakesNone(r, Loads(Fresh(b.buffer, now - INBOUND_TTL_MS)), FirstRefused(r, readable, 0) + 1)
  }

  /** A flush keeps the spool in front exactly when it does not let the buffer overtake it. */
  lemma FlushOvertakesIff(b: Box, rings: Rings, now: int)
    requires !b.paused && !b.draining && b.runner.Some?
    ensures var o := Flush(b, rings, now);
            SpoolFirst(b.spooled, o.box.spooled, o.pushed, rings) <==> !FlushOvertakes(b, rings, now)
  {
    var o := FlushOrder(b, b.runner.value, rings, now);
  }

  lemma FlushOrder(b: Box, r: Runner, rings: Rings, now: int) returns (o: Outcome)
    requires !b.paused && !b.draining && b.runner == Some(r)
    ensures o == Flush(b, rings, now)
    ensures SpoolFirst(b.spooled, o.box.spooled, o.pushed, rings) <==> !FlushOvertakes(b, rings, now)
  {
    var spool, n := FirstDelivery(b, r, rings, now);
    if spool.box.spooled != [] {
      o := StuckFlush(b, r, spool, n, rings, now);
      OvertakesWhenStuck(b, r, n, rings, now);
    } else {
      o := ThroughFlush(b, spool, rings, now);
      OvertakesNever(b, r, rings, now);
    }
  }

  lemma OvertakesWhenStuck(b: Box, r: Runner, n: nat, rings: Rings, now: int)
    requires b.runner == Some(r) && !TakesAll(r, Readable(b.spooled, rings), 0)
    requires n == FirstRefused(r, Readable(b.spooled, rings), 0) + 1
    ensures FlushOvertakes(b, rings, now) <==> !TakesNone(r, Loads(Fresh(b.buffer, now - INBOUND_TTL_MS)), n)
  {
  }

  lemma OvertakesNever(b: Box, r: Runner, rings: Rings, now: int)
    requires b.runner == Some(r) && TakesAll(r, Readable(b.spooled, rings), 0)
    ensures !FlushOvertakes(b, rings, now)
  {
  }

  /** The delivery at the start of a flush, and how many pushes it made. */
  lemma FirstDelivery(b: Box, r: Runner, rings: Rings, now: int) returns (spool: Outcome, n: nat)
    requires !b.paused && !b.draining && b.runner == Some(r)
    ensures DeliverSpool(b, rings, now) == (spool, []) && SpoolFirst(b.spooled, spool.box.spooled, spool.pushed, rings)
    ensures spool.box.spooled != [] ==> Readable(spool.box.spooled, rings) != []
    ensures spool.box.spooled == [] <==> TakesAll(r, Readable(b.spooled, rings), 0)
    ensures spool.box.spooled != [] ==> n == FirstRefused(r, Readable(b.spooled, rings), 0) + 1
    ensures On(r, spool.box, Course(n, spool.box.spooled)) && spool.box.buffer == b.buffer
  {
    spool := DeliverSpool(b, rings, now).0;
    SpoolFirstOfDelivery(b, rings, now);
    SpoolPart(b, rings, now);
    NothingLeftIff(r, b.spooled, rings);
    AllTakenMeansNoneRefused(r, Readable(b.spooled, rings), 0);
    n := SpoolPushes(r, Readable(b.spooled, rings));
  }

  /** When the spool is stuck, only the buffer is pushed behind it. */
  lemma StuckFlush(b: Box, r: Runner, spool: Outcome, n: nat, rings: Rings, now: int) returns (o: Outcome)
    requires !b.paused && !b.draining && DeliverSpool(b, rings, now) == (spool, []) && spool.box.spooled != []
    requires SpoolFirst(b.spooled, spool.box.spooled, spool.pushed, rings) && Readable(spool.box.spooled, rings) != []
    requires On(r, spool.box, Course(n, spool.box.spooled)) && spool.box.buffer == b.buffer
    ensures o == Flush(b, rings, now)
    ensures SpoolFirst(b.spooled, o.box.spooled, o.pushed, rings) <==>
            TakesNone(r, Loads(Fresh(b.buffer, now - INBOUND_TTL_MS)), n)
  {
    var behind;
    o, behind := StuckParts(b, spool, rings, now);
    var nothing := PushedBehind(r, spool.box.(buffer := [], listed := false), Course(n, spool.box.spooled),
                                Loads(Fresh(b.buffer, now - INBOUND_TTL_MS)), behind, rings, now);
    StuckOrder(b.spooled, spool.box.spooled, spool.pushed, nothing, behind, rings);
  }

  lemma PushedBehind(r: Runner, c: Box, at: Course, msgs: seq<Msg>, behind: Outcome, rings: Rings, now: int)
    returns (nothing: bool)
    requires On(r, c, at) && behind == PushBuffer(c, msgs, rings, now)
    ensures nothing == TakesNone(r, msgs, at.n) && NewerUnless(nothing, behind.pushed)
    ensures nothing ==> behind.box.spooled == at.rest
  {
    nothing := TakesNone(r, msgs, at.n);
    PushBufferNewer(r, c, at, msgs, rings, now);
    if nothing {
      Untaken(r, c, at, msgs, rings, now);
    }
  }

  lemma StuckOrder(before: seq<Record>, rest: seq<Record>, p: seq<Push>, nothing: bool, behind: Outcome, rings: Rings)
    requires SpoolFirst(before, rest, p, rings) && Readable(rest, rings) != [] && NewerUnless(nothing, behind.pushed)
    requires nothing ==> behind.box.spooled == rest
    ensures SpoolFirst(before, behind.box.spooled, p + behind.pushed, rings) <==> nothing
  {
    if nothing {
      UntouchedIff(rest, behind.pushed, rings);
      SpoolFirstThen(before, rest, rest, p, behind.pushed, rings);
    } else {
      NewerIsOutOfOrder(before, rest, behind.box.spooled, p, behind.pushed, rings);
    }
  }

  lemma StuckParts(b: Box, spool: Outcome, rings: Rings, now: int) returns (o: Outcome, behind: Outcome)
    requires !b.paused && !b.draining && DeliverSpool(b, rings, now) == (spool, []) && spool.box.spooled != []
    requires !spool.box.paused && !spool.box.draining && spool.box.runner.Some? && spool.box.buffer == b.buffer
    ensures behind == PushBuffer(spool.box.(buffer := [], listed := false),
                                 Loads(Fresh(b.buffer, now - INBOUND_TTL_MS)), rings, now)
    ensures o == Flush(b, rings, now) && o.pushed == spool.pushed + behind.pushed && o.box == behind.box
  {
    o := Flush(b, rings, now);
    behind := PushBuffer(spool.box.(buffer := [], listed := false), Loads(Fresh(b.buffer, now - INBOUND_TTL_MS)), rings,
                         now);
    assert [] + [] + behind.pushed == behind.pushed;
  }

  /** When the spool is through, nothing of it is left to overtake. */
  lemma ThroughFlush(b: Box, spool: Outcome, rings: Rings, now: int) returns (o: Outcome)
    requires !b.paused && !b.draining && DeliverSpool(b, rings, now) == (spool, [])
    requires SpoolFirst(b.spooled, [], spool.pushed, rings) && spool.box.spooled == []
    requires !spool.box.paused && !spool.box.draining
    ensures o == Flush(b, rings, now) && SpoolFirst(b.spooled, o.box.spooled, o.pushed, rings)
  {
    var rest := FlushBuffer(spool.box, [], rings, now);
    o := Then(spool, rest);
    EmptySpoolFlush(spool.box, rings, now);
    UntouchedIff([], rest.pushed, rings);
    SpoolFirstThen(b.spooled, [], [], spool.pushed, rest.pushed, rings);
  }

  lemma {:induction false} PushAllTakesNoSpool(r: Runner, msgs: seq<Msg>)
    ensures Taken(PushAll(r, msgs).pushed, true) == []
  {
    if msgs != [] {
      var d := PushAll(r, msgs[..|msgs| - 1]);
      PushAllTakesNoSpool(r, msgs[..|msgs| - 1]);
      var last := Push(msgs[|msgs| - 1], PushTo(d.runner, msgs[|msgs| - 1]).1, false);
      TakenOfAppend(d.pushed, [last], true);
      TakenOfOne(last, true);
    }
  }

  lemma {:induction false} EmptyHook(b: Box, times: nat, rings: Rings, now: int)
    requires b.spooled == []
    ensures Told(b, times, rings, now).pushed == [] && Told(b, times, rings, now).box.spooled == []
    decreases times
  {
    if times > 0 {
      EmptyHook(b, times - 1, rings, now);
    }
  }

  lemma {:induction false} PushBufferTakesNoSpool(b: Box, msgs: seq<Msg>, rings: Rings, now: int)
    requires b.spooled == []
    ensures var o := PushBuffer(b, msgs, rings, now); Taken(o.pushed, true) == [] && o.box.spooled == []
    decreases |msgs|
  {
    if msgs != [] {
      var before, last := PushBuffer(b, msgs[..|msgs| - 1], rings, now), msgs[|msgs| - 1];
      PushBufferTakesNoSpool(b, msgs[..|msgs| - 1], rings, now);
      if before.box.runner.Some? {
        var one := Push(last, PushTo(before.box.runner.value, last).1, false);
        EmptyHook(Tried(before.box, last).box, Calls(before.box.runner.value, last), rings, now);
        assert PushBuffered(before.box, last, rings, now).pushed == [one] + [];
        TakenOfAppend(before.pushed, [one] + [], true);
        TakenOfOne(one, true);
        assert [one] + [] == [one];
      }
    }
  }

  lemma EmptySpoolFlush(b: Box, rings: Rings, now: int)
    requires b.spooled == [] && !b.paused && !b.draining
    ensures var o := FlushBuffer(b, [], rings, now); Taken(o.pushed, true) == [] && o.box.spooled == []
  {
    var freed := FreedTakesNoSpool(b.(buffer := [], listed := false));
    var behind := PushBuffer(freed.box, Loads(Fresh(b.buffer, now - INBOUND_TTL_MS)), rings, now);
    PushBufferTakesNoSpool(freed.box, Loads(Fresh(b.buffer, now - INBOUND_TTL_MS)), rings, now);
    TakenOfAppend(freed.pushed, behind.pushed, true);
    EmptySpoolParts(b, freed, behind, rings, now);
  }

  lemma FreedTakesNoSpool(c: Box) returns (freed: Outcome)
    requires c.spooled == [] && !c.paused && !c.draining
    ensures freed == Liberar(c) && freed.box.spooled == [] && Taken(freed.pushed, true) == []
  {
    freed := Liberar(c);
    if c.runner.Some? {
      PushAllTakesNoSpool(c.runner.value, Loads(c.pauseHeld));
    }
  }

  lemma EmptySpoolParts(b: Box, freed: Outcome, behind: Outcome, rings: Rings, now: int)
    requires !b.paused && !b.draining && freed == Liberar(b.(buffer := [], listed := false))
    requires behind == PushBuffer(freed.box, Loads(Fresh(b.buffer, now - INBOUND_TTL_MS)), rings, now)
    ensures var o := FlushBuffer(b, [], rings, now);
            if freed.box.runner.None? then o.pushed == freed.pushed && o.box == freed.box
            else o.pushed == freed.pushed + behind.pushed && o.box == behind.box
  {
    assert [] + freed.pushed == freed.pushed;
  }

  /** The operations that let something newer overtake the spool: a delivery that is taken, and some flushes. */
  ghost predicate Overtakes(b: Box, op: Op, rings: Rings) {
    b.runner.Some? && Readable(b.spooled, rings) != [] &&
    match op
    case DoQueueDeliver(m, _) => Takes(b.runner.value, m, 0)
    case DoFlush(now) => FlushOvertakes(b, rings, now)
    case DoSpawnDone(now) => FlushOvertakes(b, rings, now)
    case _ => false
  }

  /** The operation neither pauses the agent nor begins a drain. */
  predicate GoesOn(op: Op) {
    && !op.DoPause? && !op.DoStartDrain?
    && (op.DoSpawn? || op.DoReconnect? ==> !op.paused)
  }

  ghost predicate MindsSpool(b: Box, op: Op, rings: Rings) {
    !b.paused && !b.draining && GoesOn(op) && !Overtakes(b, op, rings)
  }

  ghost predicate StepMinds(b: Box, o: Outcome, rings: Rings) {
    && SpoolFirst(b.spooled, o.box.spooled, o.pushed, rings)
    && (b.spooled == [] ==> o.box.spooled == [])
    && !o.box.paused && !o.box.draining
  }

  lemma SpoolUntouched(b: Box, o: Outcome, rings: Rings)
    requires o.box.spooled == b.spooled && (b.spooled != [] ==> o.pushed == []) && Taken(o.pushed, true) == []
    requires !o.box.paused && !o.box.draining
    ensures StepMinds(b, o, rings)
  {
    UntouchedIff(b.spooled, o.pushed, rings);
  }

  lemma LiberarMinds(b: Box, c: Box, rings: Rings)
    requires c.spooled == b.spooled && !c.paused && !c.draining
    ensures StepMinds(b, Liberar(c), rings)
  {
    if c.runner.Some? {
      PushAllTakesNoSpool(c.runner.value, Loads(c.pauseHeld));
    }
    SpoolUntouched(b, Liberar(c), rings);
  }

  lemma SendMinds(b: Box, m: Msg, now: int, env: Env)
    requires !b.paused && !b.draining
    ensures StepMinds(b, Send(b, m, now, env.digest), env.rings)
  {
    if b.runner.Some? {
      TakenOfOne(Push(m, PushTo(b.runner.value, m).1, false), true);
    }
    SpoolUntouched(b, Send(b, m, now, env.digest), env.rings);
  }

  lemma FlushGoesOn(b: Box, rings: Rings, now: int)
    requires !b.paused && !b.draining
    ensures var o := Flush(b, rings, now);
            (b.spooled == [] ==> o.box.spooled == []) && !o.box.paused && !o.box.draining
  {
    var spool := DeliverSpool(b, rings, now).0;
    var freed := Liberar(spool.box.(buffer := [], listed := false));
    LiberarKeeps(spool.box.(buffer := [], listed := false));
    PushBufferSteady(freed.box, Loads(Fresh(b.buffer, now - INBOUND_TTL_MS)), rings, now);
  }

  lemma FlushWithoutRunner(b: Box, rings: Rings, now: int)
    requires !b.paused && !b.draining && b.runner.None?
    ensures Flush(b, rings, now).box.spooled == b.spooled && Flush(b, rings, now).pushed == []
  {
  }

  /** A flush minds the spool exactly when it does not let the buffer overtake it. */
  lemma FlushMindsIff(b: Box, rings: Rings, now: int)
    requires !b.paused && !b.draining
    ensures var o := Flush(b, rings, now);
            && (SpoolFirst(b.spooled, o.box.spooled, o.pushed, rings) <==>
              b.runner.None? || !FlushOvertakes(b, rings, now))
            && (b.spooled == [] ==> o.box.spooled == []) && !o.box.paused && !o.box.draining
  {
    if b.runner.None? {
      var o := NoRunnerMinds(b, rings, now);
    } else {
      var o := RunnerMinds(b, rings, now);
    }
  }

  lemma RunnerMinds(b: Box, rings: Rings, now: int) returns (o: Outcome)
    requires !b.paused && !b.draining && b.runner.Some?
    ensures o == Flush(b, rings, now)
    ensures SpoolFirst(b.spooled, o.box.spooled, o.pushed, rings) <==> !FlushOvertakes(b, rings, now)
    ensures (b.spooled == [] ==> o.box.spooled == []) && !o.box.paused && !o.box.draining
  {
    o := FlushOrder(b, b.runner.value, rings, now);
    FlushGoesOn(b, rings, now);
  }

  lemma NoRunnerMinds(b: Box, rings: Rings, now: int) returns (o: Outcome)
    requires !b.paused && !b.draining && b.runner.None?
    ensures o == Flush(b, rings, now) && SpoolFirst(b.spooled, o.box.spooled, o.pushed, rings)
    ensures (b.spooled == [] ==> o.box.spooled == []) && !o.box.paused && !o.box.draining
  {
    o := Flush(b, rings, now);
    FlushGoesOn(b, rings, now);
    FlushWithoutRunner(b, rings, now);
    UntouchedIff(b.spooled, [], rings);
  }

  lemma DeliveryMindsIff(b: Box, m: Msg, rings: Rings, now: int)
    requires !b.paused && !b.draining
    ensures var o := QueueDeliver(b, m, rings, now).0;
            && (SpoolFirst(b.spooled, o.box.spooled, o.pushed, rings) <==>
              b.runner.None? || Readable(b.spooled, rings) == [] || !Takes(b.runner.value, m, 0))
            && (b.spooled == [] ==> o.box.spooled == []) && !o.box.paused && !o.box.draining
  {
    if b.runner.None? || Gated(b.runner.value, m) {
      UntouchedIff(b.spooled, [], rings);
      if b.runner.Some? {
        assert b.runner.value.pushes + 0 == b.runner.value.pushes;
      }
    } else {
      OfferedMindsIff(b, m, rings, now);
    }
  }

  lemma OfferedMindsIff(b: Box, m: Msg, rings: Rings, now: int)
    requires !b.paused && !b.draining && b.runner.Some?
    ensures var hook := Told(Delivered(b, m).box, Calls(b.runner.value, m), rings, now);
            && (SpoolFirst(b.spooled, hook.box.spooled, Delivered(b, m).pushed + hook.pushed, rings) <==>
              Readable(b.spooled, rings) == [] || !Takes(b.runner.value, m, 0))
            && (b.spooled == [] ==> hook.box.spooled == []) && !hook.box.paused && !hook.box.draining
  {
    var first, times := Delivered(b, m), Calls(b.runner.value, m);
    var hook := Told(first.box, times, rings, now);
    assert b.runner.value.pushes + 0 == b.runner.value.pushes;
    ToldSteady(first.box, times, rings, now);
    SpoolFirstOfHook(first.box, times, rings, now);
    var one := Push(m, PushTo(b.runner.value, m).1, false);
    TakenOfOne(one, true);
    TakenOfOne(one, false);
    if Takes(b.runner.value, m, 0) && Readable(b.spooled, rings) != [] {
      TakenIsNewer(m, hook.pushed);
      UntouchedIff(b.spooled, [], rings);
      NewerIsOutOfOrder(b.spooled, b.spooled, hook.box.spooled, [], first.pushed + hook.pushed, rings);
      assert [] + (first.pushed + hook.pushed) == first.pushed + hook.pushed;
    } else {
      UntouchedIff(b.spooled, first.pushed, rings);
      SpoolFirstThen(b.spooled, b.spooled, hook.box.spooled, first.pushed, hook.pushed, rings);
    }
  }

  lemma QuietMinds(b: Box, op: Op, env: Env)
    requires !b.paused && !b.draining && GoesOn(op) && !AsksRunner(op)
    ensures StepMinds(b, Step(b, op, env), env.rings)
  {
    if op.DoSpawn? || op.DoStop? || op.DoRemove? || op.RunnerRetains? || op.DoHoldInFlight? {
      HostLeavesSpool(b, op, env);
    } else {
      MovesLeaveSpool(b, op, env);
    }
    SpoolUntouched(b, Step(b, op, env), env.rings);
  }

  lemma HostLeavesSpool(b: Box, op: Op, env: Env)
    requires op.DoSpawn? || op.DoStop? || op.DoRemove? || op.RunnerRetains? || op.DoHoldInFlight?
    requires !b.paused && GoesOn(op)
    ensures LeavesSpool(b, Step(b, op, env))
  {
    if op.DoSpawn? {
      SpawnLeavesSpool(b, op.runner, op.project, op.now, env.digest);
    } else if op.DoStop? {
      StopLeavesSpool(b, op.now, env.digest);
    } else if op.DoRemove? {
      RemoveLeavesSpool(b, FirstWithId(QueueOf(b), op.id), FirstWithId(Loads(b.buffer), op.id),
                        FirstWithId(Loads(b.drainHeld), op.id), FirstWithId(Loads(b.pauseHeld), op.id));
    } else if op.RunnerRetains? {
      RetainLeavesSpool(b, op.source, op.now, env.digest);
    } else {
      HoldLeavesSpool(b, op.now);
    }
  }

  lemma MovesLeaveSpool(b: Box, op: Op, env: Env)
    requires op.RunnerStarts? || op.RunnerFinishes? || op.RunnerExits? || op.RunnerChanges? || op.RetainedExpires? ||
             op.BufferExpires? || op.DoForget?
    ensures LeavesSpool(b, Step(b, op, env))
  {
    if op.RunnerStarts? || op.RunnerFinishes? {
      TurnLeavesSpool(b);
    }
  }

  ghost predicate LeavesSpool(b: Box, o: Outcome) {
    o.box.spooled == b.spooled && o.pushed == [] && o.box.paused == b.paused && o.box.draining == b.draining
  }

  lemma SpawnLeavesSpool(b: Box, r: Runner, project: Option<string>, now: int, digest: Digest)
    requires !b.paused
    ensures LeavesSpool(b, Spawn(b, false, r, project, now, digest))
  {
  }

  lemma StopLeavesSpool(b: Box, now: int, digest: Digest)
    ensures LeavesSpool(b, Stop(b, now, digest))
  {
  }

  lemma RemoveLeavesSpool(b: Box, q: nat, i: nat, d: nat, p: nat)
    ensures LeavesSpool(b, RemoveAt(b, q, i, d, p))
  {
  }

  lemma RetainLeavesSpool(b: Box, source: Source, now: int, digest: Digest)
    ensures LeavesSpool(b, RetainQueue(b, source, now, digest))
  {
  }

  lemma HoldLeavesSpool(b: Box, now: int)
    ensures LeavesSpool(b, HoldInFlight(b, now))
  {
  }

  lemma TurnLeavesSpool(b: Box)
    ensures LeavesSpool(b, StartTurn(b)) && LeavesSpool(b, FinishTurn(b))
  {
  }

  /** What a step owes the spool, and exactly when it pays. */
  ghost predicate MindsExactly(b: Box, op: Op, o: Outcome, rings: Rings) {
    && (SpoolFirst(b.spooled, o.box.spooled, o.pushed, rings) <==> !Overtakes(b, op, rings))
    && (b.spooled == [] ==> o.box.spooled == []) && !o.box.paused && !o.box.draining
  }

  lemma ReconnectMinds(b: Box, paused: bool, now: int, rings: Rings)
    requires !b.paused && !b.draining && !paused
    ensures StepMinds(b, Reconnect(b, paused, now), rings)
  {
    if b.runner.None? {
      SpoolUntouched(b, Quiet(b.(paused := false)), rings);
    } else {
      LiberarMinds(b, b.(paused := false), rings);
    }
  }

  lemma SpoolOpsMind(b: Box, op: Op, env: Env)
    requires !b.paused && !b.draining && (op.DoFlush? || op.DoSpawnDone? || op.DoQueueChanged?)
    ensures MindsExactly(b, op, Step(b, op, env), env.rings)
  {
    if op.DoFlush? {
      FlushMindsIff(b, env.rings, op.now);
    } else if op.DoSpawnDone? {
      SpawnDoneMinds(b, op, env, op.now);
    } else {
      SpoolFirstOfDelivery(b, env.rings, op.now);
    }
  }

  lemma SpawnDoneMinds(b: Box, op: Op, env: Env, now: int)
    requires !b.paused && !b.draining && op == DoSpawnDone(now)
    ensures MindsExactly(b, op, Step(b, op, env), env.rings)
  {
    var o := StartedMinds(b, env.rings, now);
    SpawnDoneIs(b, op, env, now, o);
  }

  lemma StartedMinds(b: Box, rings: Rings, now: int) returns (o: Outcome)
    requires !b.paused && !b.draining
    ensures o == SpawnDone(b, rings, now)
    ensures SpoolFirst(b.spooled, o.box.spooled, o.pushed, rings) <==> b.runner.None? || !FlushOvertakes(b, rings, now)
    ensures (b.spooled == [] ==> o.box.spooled == []) && !o.box.paused && !o.box.draining
  {
    o := SpawnDone(b, rings, now);
    FlushMindsIff(Started(b), rings, now);
  }

  lemma SpawnDoneIs(b: Box, op: Op, env: Env, now: int, o: Outcome)
    requires op == DoSpawnDone(now) && o == SpawnDone(b, env.rings, now)
    ensures Step(b, op, env) == o
    ensures Overtakes(b, op, env.rings) <==> b.runner.Some? && FlushOvertakes(b, env.rings, now)
  {
  }

  /** Among the operations that neither pause nor drain, exactly these let something newer overtake the spool. */
  lemma OvertakesIff(b: Box, op: Op, env: Env)
    requires !b.paused && !b.draining && GoesOn(op)
    ensures MindsExactly(b, op, Step(b, op, env), env.rings)
  {
    match op
    case DoSend(m, now) => SendMinds(b, m, now, env);
    case DoQueueDeliver(m, now) => DeliveryMindsIff(b, m, env.rings, now);
    case DoResume => SpoolUntouched(b, Quiet(b), env.rings);
    case DoFlush(_) => SpoolOpsMind(b, op, env);
    case DoSpawnDone(_) => SpoolOpsMind(b, op, env);
    case DoQueueChanged(_) => SpoolOpsMind(b, op, env);
    case DoReconnect(paused, now) => ReconnectMinds(b, paused, now, env.rings);
    case _ => QuietMinds(b, op, env);
  }

  lemma StepMindsSpool(b: Box, op: Op, env: Env)
    requires MindsSpool(b, op, env.rings)
    ensures StepMinds(b, Step(b, op, env), env.rings)
  {
    OvertakesIff(b, op, env);
  }

  ghost predicate AllMind(b: Box, ops: seq<Op>, env: Env) {
    forall i :: 0 <= i < |ops| ==> MindsSpool(RunOps(b, ops[..i], env).box, ops[i], env.rings)
  }

  lemma AllMindPrefix(b: Box, ops: seq<Op>, env: Env)
    requires AllMind(b, ops, env) && ops != []
    ensures AllMind(b, ops[..|ops| - 1], env)
  {
    var n := |ops| - 1;
    forall i | 0 <= i < n ensures MindsSpool(RunOps(b, ops[..n][..i], env).box, ops[..n][i], env.rings) {
      assert ops[..n][..i] == ops[..i];
      assert MindsSpool(RunOps(b, ops[..i], env).box, ops[i], env.rings);
    }
  }

  lemma MindsThen(b: Box, first: Outcome, second: Outcome, rings: Rings)
    requires StepMinds(b, first, rings) && StepMinds(first.box, second, rings)
    ensures StepMinds(b, Then(first, second), rings)
  {
    SpoolFirstThen(b.spooled, first.box.spooled, second.box.spooled, first.pushed, second.pushed, rings);
  }

  /**
   * Spool FIFO over whole runs, whatever the runner answers: what waited from the previous process
   * is taken in spool order, each message once, before anything that came later.
   */
  lemma {:induction false} SpoolComesFirst(b: Box, ops: seq<Op>, env: Env)
    requires !b.paused && !b.draining && AllMind(b, ops, env)
    ensures StepMinds(b, RunOps(b, ops, env), env.rings)
  {
    if ops == [] {
      SpoolUntouched(b, Quiet(b), env.rings);
    } else {
      var n := |ops| - 1;
      AllMindPrefix(b, ops, env);
      SpoolComesFirst(b, ops[..n], env);
      assert MindsSpool(RunOps(b, ops[..n], env).box, ops[n], env.rings);
      StepMindsSpool(RunOps(b, ops[..n], env).box, ops[n], env);
      MindsThen(b, RunOps(b, ops[..n], env), Step(RunOps(b, ops[..n], env).box, ops[n], env), env.rings);
    }
  }
}
