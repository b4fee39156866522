/** What becomes of a list handed to a runner, told from the runner's answers before the first push. */
module CustodyPushes {
  import opened Common
  import opened Messages
  import opened QueueRetained
  import opened Custody
  import opened CustodyLaws
  import opened CustodyOrder

  /** The runner takes this message if it is its push number `k` from now. */
  predicate Takes(r: Runner, m: Msg, k: nat) {
    r.accepts(r.pushes + k) && !(m.member && r.blocked(r.pushes + k))
  }

  /** It takes all of these in a row, the first as push number `k`. */
  ghost predicate TakesAll(r: Runner, msgs: seq<Msg>, k: nat) {
    forall i :: 0 <= i < |msgs| ==> Takes(r, msgs[i], k + i)
  }

  /** It takes none of these, the first as push number `k`. */
  ghost predicate TakesNone(r: Runner, msgs: seq<Msg>, k: nat) {
    forall i :: 0 <= i < |msgs| ==> !Takes(r, msgs[i], k + i)
  }

  /** How many of these it takes before it turns one down. */
  function FirstRefused(r: Runner, msgs: seq<Msg>, k: nat): (n: nat)
    ensures n <= |msgs| && (n < |msgs| ==> !Takes(r, msgs[n], k + n))
    ensures forall i :: 0 <= i < n ==> Takes(r, msgs[i], k + i)
  {
    if msgs == [] || !Takes(r, msgs[0], k) then 0
    else 1 + FirstRefused(r, msgs[1..], k + 1)
  }

  /** The same runner, some pushes later, whatever its queue. */
  ghost predicate Later(r: Runner, r': Runner, n: nat) {
    && r'.pushes == r.pushes + n
    && r'.accepts == r.accepts && r'.blocked == r.blocked && r'.tells == r.tells
  }

  lemma TakesLater(r: Runner, r': Runner, n: nat, m: Msg, k: nat)
    requires Later(r, r', n)
    ensures Takes(r', m, k) == Takes(r, m, n + k)
  {
    assert r'.pushes + k == r.pushes + (n + k);
  }

  lemma TakesAllLater(r: Runner, r': Runner, n: nat, msgs: seq<Msg>, k: nat)
    requires Later(r, r', n)
    ensures TakesAll(r', msgs, k) <==> TakesAll(r, msgs, n + k)
  {
    forall i | 0 <= i < |msgs| ensures Takes(r', msgs[i], k + i) == Takes(r, msgs[i], n + k + i) {
      TakesLater(r, r', n, msgs[i], k + i);
      assert n + (k + i) == n + k + i;
    }
  }

  lemma TakesAllOfAppend(r: Runner, a: seq<Msg>, b: seq<Msg>, k: nat)
    ensures TakesAll(r, a + b, k) <==> TakesAll(r, a, k) && TakesAll(r, b, k + |a|)
  {
    if TakesAll(r, a + b, k) {
      forall i | 0 <= i < |a| ensures Takes(r, a[i], k + i) {
        assert (a + b)[i] == a[i];
      }
      forall i | 0 <= i < |b| ensures Takes(r, b[i], k + |a| + i) {
        assert (a + b)[|a| + i] == b[i];
        assert k + (|a| + i) == k + |a| + i;
      }
    }
    if TakesAll(r, a, k) && TakesAll(r, b, k + |a|) {
      forall i | 0 <= i < |a + b| ensures Takes(r, (a + b)[i], k + i) {
        if i >= |a| {
          assert (a + b)[i] == b[i - |a|] && k + |a| + (i - |a|) == k + i;
        }
      }
    }
  }

  lemma TakesAllOfOne(r: Runner, m: Msg, k: nat)
    ensures TakesAll(r, [m], k) <==> Takes(r, m, k)
  {
    assert [m][0] == m;
  }

  /* ---------- a list pushed whatever the answers ---------- */

  /** Nothing of a list is lost exactly when the runner takes each of it in its turn. */
  lemma {:induction false} PushAllExact(r: Runner, msgs: seq<Msg>)
    ensures var d := PushAll(r, msgs);
            && (d.gone == [] <==> TakesAll(r, msgs, 0))
            && d.runner.accepts == r.accepts && d.runner.blocked == r.blocked && d.runner.tells == r.tells
            && (d.gone == [] ==> Later(r, d.runner, |msgs|))
  {
    if msgs != [] {
      var n := |msgs| - 1;
      var d := PushAll(r, msgs[..n]);
      PushAllExact(r, msgs[..n]);
      assert msgs == msgs[..n] + [msgs[n]];
      TakesAllOfAppend(r, msgs[..n], [msgs[n]], 0);
      TakesAllOfOne(r, msgs[n], 0 + n);
      if Later(r, d.runner, n) {
        TakesLater(r, d.runner, n, msgs[n], 0);
      }
    }
  }

  lemma TakesNoneOfLast(r: Runner, msgs: seq<Msg>, k: nat)
    requires msgs != []
    ensures var n := |msgs| - 1;
            TakesNone(r, msgs, k) <==> TakesNone(r, msgs[..n], k) && !Takes(r, msgs[n], k + n)
  {
    var n := |msgs| - 1;
    assert forall i :: 0 <= i < n ==> msgs[..n][i] == msgs[i];
  }

  /* ---------- the spool ---------- */

  /** Every record that the runner gets to see opens. */
  ghost predicate ReachedOpen(r: Runner, rs: seq<Record>, rings: Rings) {
    forall i :: 0 <= i < |rs| && TakesAll(r, Readable(rs[..i], rings), 0) ==> ReadRecord(rs[i], rings).Some?
  }

  /** The same runner, asked for `n` more pushes. */
  function After(r: Runner, n: nat): Runner {
    r.(pushes := r.pushes + n)
  }

  /** What a delivery leaves of the spool: all from the first readable record that is turned down. */
  function RestOf(r: Runner, rs: seq<Record>, rings: Rings): seq<Record>
    decreases |rs|
  {
    if rs == [] then []
    else match ReadRecord(rs[0], rings)
      case None => RestOf(r, rs[1..], rings)
      case Some(m) => if Takes(r, m, 0) then RestOf(After(r, 1), rs[1..], rings) else rs
  }

  /** Only the answers to come matter. */
  lemma {:induction false} RestOfSame(r: Runner, r': Runner, rs: seq<Record>, rings: Rings)
    requires Later(r, r', 0)
    ensures RestOf(r', rs, rings) == RestOf(r, rs, rings)
    decreases |rs|
  {
    if rs != [] {
      match ReadRecord(rs[0], rings)
      case None => RestOfSame(r, r', rs[1..], rings);
      case Some(m) =>
        TakesLater(r, r', 0, m, 0);
        RestOfSame(After(r, 1), After(r', 1), rs[1..], rings);
    }
  }

  lemma {:induction false} NothingLeftIff(r: Runner, rs: seq<Record>, rings: Rings)
    ensures RestOf(r, rs, rings) == [] <==> TakesAll(r, Readable(rs, rings), 0)
    decreases |rs|
  {
    if rs != [] {
      match ReadRecord(rs[0], rings)
      case None =>
        NothingLeftIff(r, rs[1..], rings);
        assert Readable(rs, rings) == Readable(rs[1..], rings);
      case Some(m) =>
        assert Readable(rs, rings) == [m] + Readable(rs[1..], rings);
        TakesAllOfAppend(r, [m], Readable(rs[1..], rings), 0);
        TakesAllOfOne(r, m, 0);
        if Takes(r, m, 0) {
          NothingLeftIff(After(r, 1), rs[1..], rings);
          TakesAllLater(r, After(r, 1), 1, Readable(rs[1..], rings), 0);
        }
    }
  }

  /** How many pushes a delivery of the spool makes. */
  function SpoolPushes(r: Runner, readable: seq<Msg>): nat {
    var n := FirstRefused(r, readable, 0);
    if n == |readable| then n else n + 1
  }

  /** The spool gets through exactly when the runner takes all that is readable. */
  ghost predicate SpoolExact(r: Runner, rs: seq<Record>, rings: Rings, s: SpoolRun) {
    && s.rest == RestOf(r, rs, rings)
    && (s.gone == [] <==> ReachedOpen(r, rs, rings))
    && Later(r, s.runner, SpoolPushes(r, Readable(rs, rings)))
  }

  lemma AllTakenMeansNoneRefused(r: Runner, msgs: seq<Msg>, k: nat)
    ensures TakesAll(r, msgs, k) <==> FirstRefused(r, msgs, k) == |msgs|
  {
  }

  lemma FirstRefusedLater(r: Runner, r': Runner, msgs: seq<Msg>)
    requires Later(r, r', 1)
    ensures FirstRefused(r', msgs, 0) == FirstRefused(r, msgs, 1)
  {
    var n, n' := FirstRefused(r, msgs, 1), FirstRefused(r', msgs, 0);
    if n < n' {
      TakesLater(r, r', 1, msgs[n], n);
    } else if n' < n {
      TakesLater(r, r', 1, msgs[n'], n');
    }
  }

  lemma ExactSkips(r: Runner, rs: seq<Record>, rings: Rings, s: SpoolRun, g: Gone)
    requires rs != [] && ReadRecord(rs[0], rings).None? && SpoolExact(r, rs[1..], rings, s)
    ensures SpoolExact(r, rs, rings, s.(gone := [g] + s.gone))
  {
    assert Readable(rs, rings) == Readable(rs[1..], rings);
    assert rs[..0] == [] && TakesAll(r, Readable(rs[..0], rings), 0);
  }

  lemma ReachedAfterOne(r: Runner, r': Runner, rs: seq<Record>, m: Msg, rings: Rings)
    requires rs != [] && ReadRecord(rs[0], rings) == Some(m) && Later(r, r', 1) && Takes(r, m, 0)
    ensures ReachedOpen(r, rs, rings) <==> ReachedOpen(r', rs[1..], rings)
  {
    forall i | 0 < i < |rs|
      ensures TakesAll(r, Readable(rs[..i], rings), 0) <==> TakesAll(r', Readable(rs[1..][..i - 1], rings), 0)
    {
      ReadableOfCons(rs, i - 1, rings);
      TakesAllOfAppend(r, [m], Readable(rs[1..][..i - 1], rings), 0);
      TakesAllOfOne(r, m, 0);
      TakesAllLater(r, r', 1, Readable(rs[1..][..i - 1], rings), 0);
    }
    if ReachedOpen(r, rs, rings) {
      forall i | 0 <= i < |rs[1..]| && TakesAll(r', Readable(rs[1..][..i], rings), 0)
          ensures ReadRecord(rs[1..][i], rings).Some? {
        assert TakesAll(r, Readable(rs[..i + 1], rings), 0);
      }
    }
    if ReachedOpen(r', rs[1..], rings) {
      forall i | 0 <= i < |rs| && TakesAll(r, Readable(rs[..i], rings), 0) ensures ReadRecord(rs[i], rings).Some? {
        if i > 0 {
          assert TakesAll(r', Readable(rs[1..][..i - 1], rings), 0);
          assert rs[1..][i - 1] == rs[i];
        }
      }
    }
  }

  lemma ExactTakes(r: Runner, r': Runner, rs: seq<Record>, m: Msg, rings: Rings, s: SpoolRun)
    requires rs != [] && ReadRecord(rs[0], rings) == Some(m) && Later(r, r', 1) && Takes(r, m, 0)
    requires SpoolExact(r', rs[1..], rings, s)
    ensures SpoolExact(r, rs, rings, s.(pushed := [Push(m, true, true)] + s.pushed))
  {
    assert Readable(rs, rings) == [m] + Readable(rs[1..], rings);
    ReachedAfterOne(r, r', rs, m, rings);
    CountsAfterOne(r, r', m, Readable(rs[1..], rings));
    RestOfSame(After(r, 1), r', rs[1..], rings);
  }

  lemma CountsAfterOne(r: Runner, r': Runner, m: Msg, rest: seq<Msg>)
    requires Later(r, r', 1) && Takes(r, m, 0)
    ensures TakesAll(r, [m] + rest, 0) <==> TakesAll(r', rest, 0)
    ensures SpoolPushes(r, [m] + rest) == 1 + SpoolPushes(r', rest)
  {
    TakesAllOfAppend(r, [m], rest, 0);
    TakesAllOfOne(r, m, 0);
    TakesAllLater(r, r', 1, rest, 0);
    assert ([m] + rest)[1..] == rest;
    FirstRefusedLater(r, r', rest);
  }

  lemma ExactStops(r: Runner, rs: seq<Record>, m: Msg, rings: Rings)
    requires rs != [] && ReadRecord(rs[0], rings) == Some(m) && !Takes(r, m, 0)
    ensures SpoolExact(r, rs, rings, SpoolRun(PushTo(r, m).0, rs, [], [Push(m, false, true)]))
  {
    var all := Readable(rs, rings);
    assert all[0] == m && !TakesAll(r, all, 0);
    forall i | 0 < i < |rs| ensures !TakesAll(r, Readable(rs[..i], rings), 0) {
      assert rs[..i][0] == rs[0] && Readable(rs[..i], rings)[0] == m;
    }
  }

  /** A delivery of the spool, exactly: what it leaves, what it loses, and how many pushes it makes. */
  lemma {:induction false} PushSpoolExact(r: Runner, rs: seq<Record>, rings: Rings)
    ensures SpoolExact(r, rs, rings, PushSpool(r, rs, rings))
    decreases |rs|
  {
    if rs != [] {
      match ReadRecord(rs[0], rings)
      case None =>
        PushSpoolExact(r, rs[1..], rings);
        ExactSkips(r, rs, rings, PushSpool(r, rs[1..], rings), Gone(Unreadable, RecordMsg(rs[0])));
      case Some(m) =>
        var (r', ok) := PushTo(r, m);
        assert r.pushes + 0 == r.pushes;
        if ok {
          PushSpoolExact(r', rs[1..], rings);
          ExactTakes(r, r', rs, m, rings, PushSpool(r', rs[1..], rings));
        } else {
          ExactStops(r, rs, m, rings);
        }
    }
  }

  /** A delivery to a runner, told from the state before it. */
  lemma SpoolPart(b: Box, rings: Rings, now: int)
    requires !b.paused && !b.draining && b.runner.Some?
    ensures var (o, held) := DeliverSpool(b, rings, now);
            var r := b.runner.value;
            && held == [] && o.entered == [] && o.box.runner.Some?
            && o.box == b.(runner := o.box.runner, spooled := RestOf(r, b.spooled, rings))
            && (o.gone == [] <==> ReachedOpen(r, b.spooled, rings))
            && Later(r, o.box.runner.value, SpoolPushes(r, Readable(b.spooled, rings)))
  {
    PushSpoolExact(b.runner.value, b.spooled, rings);
  }

  /* ---------- the buffer, with the hook in between ---------- */

  /** Where a flush stands: `n` pushes have been made, `rest` is still spooled. */
  datatype Course = Course(n: nat, rest: seq<Record>)

  /** One delivery of the spool from here. */
  function Retried(r: Runner, c: Course, rings: Rings): Course {
    var q := After(r, c.n);
    Course(c.n + SpoolPushes(q, Readable(c.rest, rings)), RestOf(q, c.rest, rings))
  }

  function Retries(r: Runner, c: Course, times: nat, rings: Rings): Course {
    if times == 0 then c else Retried(r, Retries(r, c, times - 1, rings), rings)
  }

  /** Every record that these deliveries reach opens. */
  ghost predicate RetriesOpen(r: Runner, c: Course, times: nat, rings: Rings) {
    times == 0 ||
    var d := Retries(r, c, times - 1, rings);
    RetriesOpen(r, c, times - 1, rings) && ReachedOpen(After(r, d.n), d.rest, rings)
  }

  /** How often the hook is called while push number `k` is taken. */
  function CallsAt(r: Runner, m: Msg, k: nat): nat {
    if Takes(r, m, k) then r.tells(r.pushes + k) else 0
  }

  /** One message of the buffer, and the retries from inside its push. */
  function Onward(r: Runner, c: Course, m: Msg, rings: Rings): Course {
    Retries(r, Course(c.n + 1, c.rest), CallsAt(r, m, c.n), rings)
  }

  function CourseOf(r: Runner, c: Course, msgs: seq<Msg>, rings: Rings): Course {
    if msgs == [] then c else Onward(r, CourseOf(r, c, msgs[..|msgs| - 1], rings), msgs[|msgs| - 1], rings)
  }

  /** The message is taken in its turn, and so every record that its hook reaches opens. */
  ghost predicate Passes(r: Runner, c: Course, m: Msg, rings: Rings) {
    Takes(r, m, c.n) && RetriesOpen(r, Course(c.n + 1, c.rest), CallsAt(r, m, c.n), rings)
  }

  /** So it is for each of these, one behind the other. */
  ghost predicate AllPass(r: Runner, c: Course, msgs: seq<Msg>, rings: Rings) {
    msgs == [] ||
    var init, last := msgs[..|msgs| - 1], msgs[|msgs| - 1];
    AllPass(r, c, init, rings) && Passes(r, CourseOf(r, c, init, rings), last, rings)
  }

  /** The agent stands where the course says. */
  ghost predicate On(r: Runner, b: Box, c: Course) {
    !b.paused && !b.draining && b.runner.Some? && Later(r, b.runner.value, c.n) && b.spooled == c.rest
  }

  lemma LaterAgain(r: Runner, q: Runner, n: nat, k: nat)
    requires Later(r, q, n)
    ensures Later(r, After(q, k), n + k) && Later(After(r, n), q, 0)
  {
  }

  lemma SpoolPushesSame(r: Runner, r': Runner, msgs: seq<Msg>)
    requires Later(r, r', 0)
    ensures SpoolPushes(r', msgs) == SpoolPushes(r, msgs)
  {
    var n, n' := FirstRefused(r, msgs, 0), FirstRefused(r', msgs, 0);
    if n < n' {
      TakesLater(r, r', 0, msgs[n], n);
    } else if n' < n {
      TakesLater(r, r', 0, msgs[n'], n');
    }
  }

  lemma ReachedOpenSame(r: Runner, r': Runner, rs: seq<Record>, rings: Rings)
    requires Later(r, r', 0)
    ensures ReachedOpen(r', rs, rings) <==> ReachedOpen(r, rs, rings)
  {
    forall i | 0 <= i < |rs|
      ensures TakesAll(r', Readable(rs[..i], rings), 0) <==> TakesAll(r, Readable(rs[..i], rings), 0)
    {
      TakesAllLater(r, r', 0, Readable(rs[..i], rings), 0);
    }
  }

  lemma QueueChangedCourse(r: Runner, b: Box, c: Course, rings: Rings, now: int)
    requires On(r, b, c)
    ensures var o := QueueChanged(b, rings, now);
            && On(r, o.box, Retried(r, c, rings)) && o.entered == []
            && (o.gone == [] <==> ReachedOpen(After(r, c.n), c.rest, rings))
  {
    var q := b.runner.value;
    SpoolPart(b, rings, now);
    LaterAgain(r, q, c.n, 0);
    RestOfSame(After(r, c.n), q, c.rest, rings);
    SpoolPushesSame(After(r, c.n), q, Readable(c.rest, rings));
    ReachedOpenSame(After(r, c.n), q, c.rest, rings);
    assert Loads([]) == [] && Fated(PausedSpool, []) == [];
  }

  lemma {:induction false} ToldCourse(r: Runner, b: Box, c: Course, times: nat, rings: Rings, now: int)
    requires On(r, b, c)
    ensures var o := Told(b, times, rings, now);
            && On(r, o.box, Retries(r, c, times, rings)) && o.entered == []
            && (o.gone == [] <==> RetriesOpen(r, c, times, rings))
    decreases times
  {
    if times > 0 {
      ToldCourse(r, b, c, times - 1, rings, now);
      QueueChangedCourse(r, Told(b, times - 1, rings, now).box, Retries(r, c, times - 1, rings), rings, now);
    }
  }

  lemma TriedCourse(r: Runner, b: Box, c: Course, m: Msg)
    requires On(r, b, c)
    ensures var o := Tried(b, m);
            && On(r, o.box, Course(c.n + 1, c.rest)) && o.entered == []
            && (o.gone == [] <==> Takes(r, m, c.n)) && Calls(b.runner.value, m) == CallsAt(r, m, c.n)
  {
    var q := b.runner.value;
    TakesLater(r, q, c.n, m, 0);
    assert q.pushes + 0 == q.pushes == r.pushes + c.n;
  }

  lemma PushBufferedCourse(r: Runner, b: Box, c: Course, m: Msg, rings: Rings, now: int)
    requires On(r, b, c)
    ensures var o := PushBuffered(b, m, rings, now);
            && On(r, o.box, Onward(r, c, m, rings)) && o.entered == []
            && (o.gone == [] <==> Passes(r, c, m, rings))
  {
    TriedCourse(r, b, c, m);
    ToldCourse(r, Tried(b, m).box, Course(c.n + 1, c.rest), CallsAt(r, m, c.n), rings, now);
  }

  /** Nothing of the buffer and of what is retried meanwhile is lost exactly when all of it passes. */
  lemma {:induction false} PushBufferExact(r: Runner, b: Box, c: Course, msgs: seq<Msg>, rings: Rings, now: int)
    requires On(r, b, c)
    ensures var o := PushBuffer(b, msgs, rings, now);
            && On(r, o.box, CourseOf(r, c, msgs, rings)) && o.entered == []
            && (o.gone == [] <==> AllPass(r, c, msgs, rings))
    decreases |msgs|
  {
    if msgs != [] {
      var n := |msgs| - 1;
      PushBufferExact(r, b, c, msgs[..n], rings, now);
      PushBufferedCourse(r, PushBuffer(b, msgs[..n], rings, now).box, CourseOf(r, c, msgs[..n], rings), msgs[n], rings,
                         now);
    }
  }

  /** With nothing spooled the hook does nothing. */
  lemma {:induction false} NothingToRetry(r: Runner, n: nat, times: nat, rings: Rings)
    ensures Retries(r, Course(n, []), times, rings) == Course(n, []) && RetriesOpen(r, Course(n, []), times, rings)
    decreases times
  {
    if times > 0 {
      NothingToRetry(r, n, times - 1, rings);
    }
  }

  lemma OnwardAlone(r: Runner, n: nat, m: Msg, rings: Rings)
    ensures Onward(r, Course(n, []), m, rings) == Course(n + 1, [])
    ensures Passes(r, Course(n, []), m, rings) <==> Takes(r, m, n)
  {
    NothingToRetry(r, n + 1, CallsAt(r, m, n), rings);
  }

  lemma {:induction false} NothingInBetween(r: Runner, n: nat, msgs: seq<Msg>, rings: Rings)
    ensures CourseOf(r, Course(n, []), msgs, rings) == Course(n + |msgs|, [])
    decreases |msgs|
  {
    if msgs != [] {
      NothingInBetween(r, n, msgs[..|msgs| - 1], rings);
      OnwardAlone(r, n + |msgs| - 1, msgs[|msgs| - 1], rings);
    }
  }

  /** So the buffer passes exactly when the runner takes it in a row. */
  lemma {:induction false} PassInARow(r: Runner, n: nat, msgs: seq<Msg>, rings: Rings)
    ensures AllPass(r, Course(n, []), msgs, rings) <==> TakesAll(r, msgs, n)
    decreases |msgs|
  {
    if msgs != [] {
      var init, last := msgs[..|msgs| - 1], msgs[|msgs| - 1];
      PassInARow(r, n, init, rings);
      NothingInBetween(r, n, init, rings);
      OnwardAlone(r, n + |init|, last, rings);
      assert msgs == init + [last];
      TakesAllOfAppend(r, init, [last], n);
      TakesAllOfOne(r, last, n + |init|);
    }
  }

  /** Nor does it do anything as long as nothing is taken. */
  lemma {:induction false} NothingTaken(r: Runner, c: Course, msgs: seq<Msg>, rings: Rings)
    requires TakesNone(r, msgs, c.n)
    ensures CourseOf(r, c, msgs, rings) == Course(c.n + |msgs|, c.rest)
    decreases |msgs|
  {
    if msgs != [] {
      var n := |msgs| - 1;
      TakesNoneOfLast(r, msgs, c.n);
      NothingTaken(r, c, msgs[..n], rings);
    }
  }
}
