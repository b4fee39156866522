/**
 * The incremental reader of a growing chat log (src/agent-runner.ts): each sweep reads what was
 * appended, consumes whole lines and an unterminated tail that is already complete JSON, and
 * reports every tool call once.
 */
module GrokSweep {
  import opened Common

  newtype byte = x: int | 0 <= x < 256

  type Bytes = seq<byte>

  const NL: byte := 10

  datatype Call = Call(id: string, name: string, input: string)

  /** The tool calls of a line, the trimming of a text, and whether a text is one JSON value. */
  datatype Parser = Parser(calls: Bytes -> seq<Call>, trim: Bytes -> Bytes, complete: Bytes -> bool)

  /* ---------- lines ---------- */

  /** No line ends before position `i`. */
  ghost predicate OneLine(c: Bytes, i: nat)
    requires i <= |c|
  {
    forall j :: 0 <= j < i ==> c[j] != NL
  }

  function FirstNl(c: Bytes): (i: nat)
    ensures i <= |c| && OneLine(c, i) && (i < |c| ==> c[i] == NL)
  {
    if c == [] || c[0] == NL then 0 else FirstNl(c[1..]) + 1
  }

  /** JavaScript `split("\n")`. */
  function Split(c: Bytes): (lines: seq<Bytes>)
    decreases |c|
  {
    var i := FirstNl(c);
    if i == |c| then [c] else [c[..i]] + Split(c[i + 1..])
  }

  function CallsOf(p: Parser, lines: seq<Bytes>): seq<Call> {
    if lines == [] then [] else p.calls(lines[0]) + CallsOf(p, lines[1..])
  }

  /** A single pass over a text. */
  function Calls(p: Parser, c: Bytes): seq<Call> {
    CallsOf(p, Split(c))
  }

  lemma FirstNlIs(c: Bytes, i: nat)
    requires i <= |c| && OneLine(c, i) && (i < |c| ==> c[i] == NL)
    ensures FirstNl(c) == i
  {
  }

  lemma CallsOfLine(p: Parser, c: Bytes)
    requires OneLine(c, |c|)
    ensures Calls(p, c) == p.calls(c)
  {
    FirstNlIs(c, |c|);
    assert Split(c) == [c];
    assert CallsOf(p, [c][1..]) == [];
  }

  lemma CallsOfFirstLine(p: Parser, c: Bytes, i: nat)
    requires i < |c| && OneLine(c, i) && c[i] == NL
    ensures Calls(p, c) == p.calls(c[..i]) + Calls(p, c[i + 1..])
  {
    FirstNlIs(c, i);
    assert Split(c) == [c[..i]] + Split(c[i + 1..]);
    assert Split(c)[1..] == Split(c[i + 1..]);
  }

  /** A place where a text may be cut without tearing a line apart. */
  ghost predicate Boundary(c: Bytes, i: nat)
    requires i <= |c|
  {
    i == 0 || c[i - 1] == NL || i == |c| || c[i] == NL
  }

  /** The cut falls at the end of the first line, before its newline. */
  lemma CutEndsFirstLine(p: Parser, c: Bytes, i: nat)
    requires p.calls([]) == [] && i < |c| && OneLine(c, i) && c[i] == NL
    ensures Calls(p, c) == Calls(p, c[..i]) + Calls(p, c[i..])
  {
    CallsOfFirstLine(p, c, i);
    CallsOfLine(p, c[..i]);
    var b := c[i..];
    CallsOfFirstLine(p, b, 0);
    assert b[..0] == [] && b[1..] == c[i + 1..];
    assert [] + Calls(p, b[1..]) == Calls(p, b[1..]);
  }

  /** The first line is whole on the left of the cut. */
  lemma CutPastFirstLine(p: Parser, c: Bytes, k: nat, i: nat)
    requires k < i <= |c| && OneLine(c, k) && c[k] == NL
    requires var rest := c[k + 1..]; Calls(p, rest) == Calls(p, rest[..i - k - 1]) + Calls(p, rest[i - k - 1..])
    ensures Calls(p, c) == Calls(p, c[..i]) + Calls(p, c[i..])
  {
    var a, rest := c[..i], c[k + 1..];
    CallsOfFirstLine(p, c, k);
    CallsOfFirstLine(p, a, k);
    assert a[..k] == c[..k] && a[k + 1..] == rest[..i - k - 1] && c[i..] == rest[i - k - 1..];
    assert p.calls(c[..k]) + (Calls(p, a[k + 1..]) + Calls(p, c[i..])) == p.calls(c[..k]) + Calls(p, a[k + 1..]) +
           Calls(p, c[i..]);
  }

  /** Cut at a boundary, the two parts yield together what the whole yields. */
  lemma {:induction false} CutAtBoundary(p: Parser, c: Bytes, i: nat)
    requires p.calls([]) == [] && i <= |c| && Boundary(c, i)
    ensures Calls(p, c) == Calls(p, c[..i]) + Calls(p, c[i..])
    decreases |c|
  {
    var k := FirstNl(c);
    if i == 0 {
      assert c[i..] == c && c[..i] == [];
      CallsOfLine(p, []);
      assert [] + Calls(p, c) == Calls(p, c);
    } else if i == |c| {
      assert c[..i] == c && c[i..] == [];
      CallsOfLine(p, []);
    } else if k < i {
      var rest := c[k + 1..];
      assert i - k - 1 > 0 ==> rest[i - k - 2] == c[i - 1];
      assert rest[i - k - 1] == c[i];
      CutAtBoundary(p, rest, i - k - 1);
      CutPastFirstLine(p, c, k, i);
    } else {
      CutEndsFirstLine(p, c, i);
    }
  }

  /* ---------- reporting each call once ---------- */

  function Ids(calls: seq<Call>): set<string> {
    set c | c in calls :: c.id
  }

  /** The calls whose id is neither known nor earlier in the list. */
  function NewCalls(seen: set<string>, calls: seq<Call>): seq<Call> {
    if calls == [] then []
    else
      var n := |calls| - 1;
      var before := NewCalls(seen, calls[..n]);
      if calls[n].id in seen || calls[n].id in Ids(calls[..n]) then before else before + [calls[n]]
  }

  lemma IdsOfAppend(a: seq<Call>, b: seq<Call>)
    ensures Ids(a + b) == Ids(a) + Ids(b)
  {
  }

  lemma {:induction false} NewCallsOfAppend(seen: set<string>, a: seq<Call>, b: seq<Call>)
    ensures NewCalls(seen, a + b) == NewCalls(seen, a) + NewCalls(seen + Ids(a), b)
  {
    if b == [] {
      assert a + b == a;
    } else {
      var n := |b| - 1;
      assert (a + b)[..|a + b| - 1] == a + b[..n];
      NewCallsOfAppend(seen, a, b[..n]);
      IdsOfAppend(a, b[..n]);
    }
  }

  /** Each id is reported at most once, never if it was known, and at least once otherwise. */
  lemma {:induction false} ReportedExactlyOnce(seen: set<string>, calls: seq<Call>)
    ensures Ids(NewCalls(seen, calls)) == Ids(calls) - seen
    ensures var r := NewCalls(seen, calls); forall i, j :: 0 <= i < j < |r| ==> r[i].id != r[j].id
  {
    if calls != [] {
      var n := |calls| - 1;
      ReportedExactlyOnce(seen, calls[..n]);
      assert calls == calls[..n] + [calls[n]];
      IdsOfAppend(calls[..n], [calls[n]]);
      var r := NewCalls(seen, calls[..n]);
      IdsOfAppend(r, [calls[n]]);
      assert Ids([calls[n]]) == {calls[n].id};
      forall i | 0 <= i < |r| ensures r[i].id in Ids(calls[..n]) {
        assert r[i].id in Ids(r);
      }
    }
  }

  /* ---------- one sweep ---------- */

  /** How many bytes precede the end of the last whole line. */
  function WholeLines(buf: Bytes): (n: nat)
    ensures n <= |buf| && OneLine(buf[n..], |buf| - n) && (n > 0 ==> buf[n - 1] == NL)
  {
    if buf == [] then 0
    else if buf[|buf| - 1] == NL then |buf|
    else
      var n := WholeLines(buf[..|buf| - 1]);
      assert buf[n..] == buf[..|buf| - 1][n..] + [buf[|buf| - 1]];
      n
  }

  /** The unterminated tail is taken when it is one JSON value already. */
  predicate TakesTail(p: Parser, tail: Bytes) {
    p.trim(tail) != [] && p.complete(p.trim(tail))
  }

  function Consumed(p: Parser, buf: Bytes): (n: nat)
    ensures n <= |buf|
  {
    if TakesTail(p, buf[WholeLines(buf)..]) then |buf| else WholeLines(buf)
  }

  /** The lines one sweep looks at. */
  function SweptLines(p: Parser, buf: Bytes): seq<Bytes> {
    var n := WholeLines(buf);
    (if n > 0 then Split(buf[..n]) else []) + (if TakesTail(p, buf[n..]) then [p.trim(buf[n..])] else [])
  }

  lemma {:induction false} CallsOfLines(p: Parser, a: seq<Bytes>, b: seq<Bytes>)
    ensures CallsOf(p, a + b) == CallsOf(p, a) + CallsOf(p, b)
  {
    if a == [] {
      assert a + b == b;
    } else {
      CallsOfLines(p, a[1..], b);
      assert (a + b)[1..] == a[1..] + b;
    }
  }

  /** What a sweep parses is what a single pass over the bytes it consumes would. */
  lemma SweepParsesWhatItConsumes(p: Parser, buf: Bytes)
    requires p.calls([]) == []
    requires TakesTail(p, buf[WholeLines(buf)..]) ==>
             p.calls(p.trim(buf[WholeLines(buf)..])) == p.calls(buf[WholeLines(buf)..])
    ensures CallsOf(p, SweptLines(p, buf)) == Calls(p, buf[..Consumed(p, buf)])
  {
    var n := WholeLines(buf);
    var tail := buf[n..];
    var lines := if n > 0 then Split(buf[..n]) else [];
    assert CallsOf(p, lines) == Calls(p, buf[..n]) by {
      if n == 0 {
        assert buf[..n] == [];
        CallsOfLine(p, []);
      }
    }
    if TakesTail(p, tail) {
      CallsOfLines(p, lines, [p.trim(tail)]);
      assert [p.trim(tail)][1..] == [];
      CallsOfLine(p, tail);
      CutAtBoundary(p, buf, n);
      assert buf[..|buf|] == buf;
    } else {
      assert lines + [] == lines;
    }
  }

  /* ---------- whole runs on a growing file ---------- */

  datatype Event = Append(bytes: Bytes) | Sweep(n: nat, readOk: bool)

  /** The file, the cursor, the ids met and the calls reported. */
  datatype World = World(file: Bytes, offset: nat, seen: set<string>, log: seq<Call>)

  function Min(a: nat, b: nat): nat {
    if a < b then a else b
  }

  /** What one read of up to `n` bytes returns. */
  function Window(file: Bytes, offset: nat, n: nat): Bytes
    requires offset <= |file|
  {
    file[offset..offset + Min(n, |file| - offset)]
  }

  /** The world after the cursor moved over `k` bytes that yield `calls`. */
  function Moved(w: World, k: nat, calls: seq<Call>): World {
    World(w.file, w.offset + k, w.seen + Ids(calls), w.log + NewCalls(w.seen, calls))
  }

  function Swept(p: Parser, w: World, n: nat): World
    requires w.offset <= |w.file|
  {
    var buf := Window(w.file, w.offset, n);
    Moved(w, Consumed(p, buf), CallsOf(p, SweptLines(p, buf)))
  }

  function Step(p: Parser, w: World, e: Event): World {
    match e
    case Append(bytes) => w.(file := w.file + bytes)
    case Sweep(n, readOk) => if !readOk || |w.file| <= w.offset then w else Swept(p, w, n)
  }

  function Run(p: Parser, w: World, events: seq<Event>): World {
    if events == [] then w else Step(p, Run(p, w, events[..|events| - 1]), events[|events| - 1])
  }

  predicate LineStart(f: Bytes, i: nat)
    requires i <= |f|
  {
    i == 0 || f[i - 1] == NL
  }

  /** The beginning of a line, up to `j`, is a JSON value that a sweep would take. */
  ghost predicate TakenEarly(p: Parser, f: Bytes, i: nat, j: nat)
    requires i <= j <= |f|
  {
    LineStart(f, i) && OneLine(f[i..j], j - i) && TakesTail(p, f[i..j])
  }

  /** A line that is complete JSON is never extended, and blanks around JSON do not matter. */
  ghost predicate NeverExtended(p: Parser, f: Bytes) {
    && p.calls([]) == [] && p.trim([]) == []
    && forall i, j {:trigger TakenEarly(p, f, i, j)} :: 0 <= i <= j <= |f| && TakenEarly(p, f, i, j) ==>
         (j == |f| || f[j] == NL) && p.calls(p.trim(f[i..j])) == p.calls(f[i..j])
  }

  /** The cursor stands between lines; everything before it was met, and what was new is reported. */
  ghost predicate InStep(p: Parser, w0: World, w: World, f: Bytes) {
    && w0.offset <= w.offset <= |w.file| && w.file <= f
    && Boundary(f, w.offset)
    && w.seen == w0.seen + Ids(Calls(p, f[w0.offset..w.offset]))
    && w.log == w0.log + NewCalls(w0.seen, Calls(p, f[w0.offset..w.offset]))
  }

  /** A tail that is taken starts a line of the file; `k` is where it starts in the bytes read. */
  lemma TailStartsLine(p: Parser, f: Bytes, start: nat, end: nat, k: nat)
    requires p.trim([]) == [] && start + k <= end <= |f| && Boundary(f, start)
    requires k > 0 ==> f[start + k - 1] == NL
    requires OneLine(f[start + k..end], end - start - k) && TakesTail(p, f[start + k..end])
    ensures TakenEarly(p, f, start + k, end)
  {
    var tail := f[start + k..end];
    assert tail != [];
    assert tail[0] == f[start + k];
  }

  lemma TailIsStretch(f: Bytes, start: nat, buf: Bytes)
    requires start + |buf| <= |f| && buf == f[start..start + |buf|]
    ensures var k := WholeLines(buf);
            buf[k..] == f[start + k..start + |buf|] && (k > 0 ==> f[start + k - 1] == NL) &&
            OneLine(f[start + k..start + |buf|], |buf| - k)
  {
    var k := WholeLines(buf);
    assert k > 0 ==> buf[k - 1] == f[start + k - 1];
  }

  /** A sweep of a stretch of the file moves the cursor to a boundary. */
  lemma SweepEndsAtBoundary(p: Parser, f: Bytes, start: nat, buf: Bytes)
    requires NeverExtended(p, f) && start + |buf| <= |f| && buf == f[start..start + |buf|] && Boundary(f, start)
    ensures Boundary(f, start + Consumed(p, buf))
  {
    TailIsStretch(f, start, buf);
    if TakesTail(p, buf[WholeLines(buf)..]) {
      TailStartsLine(p, f, start, start + |buf|, WholeLines(buf));
    }
  }

  /** And it parses what a single pass over the bytes it moved past would. */
  lemma SweepParsesAsOnePass(p: Parser, f: Bytes, start: nat, buf: Bytes)
    requires NeverExtended(p, f) && start + |buf| <= |f| && buf == f[start..start + |buf|] && Boundary(f, start)
    ensures CallsOf(p, SweptLines(p, buf)) == Calls(p, buf[..Consumed(p, buf)])
  {
    TailIsStretch(f, start, buf);
    if TakesTail(p, buf[WholeLines(buf)..]) {
      TailStartsLine(p, f, start, start + |buf|, WholeLines(buf));
    }
    SweepParsesWhatItConsumes(p, buf);
  }

  /** Two stretches that meet at a boundary parse as one. */
  lemma StretchesJoin(p: Parser, f: Bytes, i: nat, j: nat, k: nat)
    requires p.calls([]) == [] && i <= j <= k <= |f| && Boundary(f, j)
    ensures Calls(p, f[i..k]) == Calls(p, f[i..j]) + Calls(p, f[j..k])
  {
    var c := f[i..k];
    assert j > i ==> c[j - i - 1] == f[j - 1];
    assert j < k ==> c[j - i] == f[j];
    CutAtBoundary(p, c, j - i);
    assert c[..j - i] == f[i..j] && c[j - i..] == f[j..k];
  }

  /** What was new in two stretches is what was new in the first and then in the second. */
  lemma ReportsJoin(w0: World, seen: set<string>, log: seq<Call>, before: seq<Call>, now: seq<Call>)
    requires seen == w0.seen + Ids(before) && log == w0.log + NewCalls(w0.seen, before)
    ensures seen + Ids(now) == w0.seen + Ids(before + now)
    ensures log + NewCalls(seen, now) == w0.log + NewCalls(w0.seen, before + now)
  {
    NewCallsOfAppend(w0.seen, before, now);
    IdsOfAppend(before, now);
  }

  lemma WindowOfPrefix(file: Bytes, f: Bytes, start: nat, n: nat)
    requires file <= f && start <= |file|
    ensures var buf := Window(file, start, n); start + |buf| <= |file| && buf == f[start..start + |buf|]
  {
  }

  lemma PrefixOfStretch(f: Bytes, start: nat, buf: Bytes, k: nat)
    requires start + |buf| <= |f| && buf == f[start..start + |buf|] && k <= |buf|
    ensures buf[..k] == f[start..start + k]
  {
  }

  /** A sweep of a stretch covers `k` bytes of it, up to a boundary, as a single pass would. */
  lemma SweepCovers(p: Parser, f: Bytes, start: nat, buf: Bytes) returns (k: nat)
    requires NeverExtended(p, f) && start + |buf| <= |f| && buf == f[start..start + |buf|] && Boundary(f, start)
    ensures k == Consumed(p, buf) && k <= |buf| && Boundary(f, start + k)
    ensures CallsOf(p, SweptLines(p, buf)) == Calls(p, f[start..start + k])
  {
    k := Consumed(p, buf);
    SweepEndsAtBoundary(p, f, start, buf);
    SweepParsesAsOnePass(p, f, start, buf);
    PrefixOfStretch(f, start, buf, k);
  }

  /** The file seen so far is the beginning of the final one. */
  lemma SweptIs(p: Parser, w: World, n: nat, f: Bytes) returns (k: nat, calls: seq<Call>)
    requires NeverExtended(p, f) && w.file <= f && w.offset <= |w.file| && Boundary(f, w.offset)
    ensures w.offset + k <= |w.file| && Boundary(f, w.offset + k) && calls == Calls(p, f[w.offset..w.offset + k])
    ensures Swept(p, w, n) == Moved(w, k, calls)
  {
    var buf := Window(w.file, w.offset, n);
    WindowOfPrefix(w.file, f, w.offset, n);
    k := SweepCovers(p, f, w.offset, buf);
    calls := CallsOf(p, SweptLines(p, buf));
    SweptMoves(p, w, n, buf);
  }

  lemma SweptMoves(p: Parser, w: World, n: nat, buf: Bytes)
    requires w.offset <= |w.file| && buf == Window(w.file, w.offset, n)
    ensures Swept(p, w, n) == Moved(w, Consumed(p, buf), CallsOf(p, SweptLines(p, buf)))
  {
  }

  lemma MovedStaysInStep(p: Parser, w0: World, w: World, k: nat, calls: seq<Call>, f: Bytes)
    requires p.calls([]) == [] && InStep(p, w0, w, f)
    requires w.offset + k <= |w.file| && Boundary(f, w.offset + k) && calls == Calls(p, f[w.offset..w.offset + k])
    ensures InStep(p, w0, Moved(w, k, calls), f)
  {
    StretchesJoin(p, f, w0.offset, w.offset, w.offset + k);
    ReportsJoin(w0, w.seen, w.log, Calls(p, f[w0.offset..w.offset]), calls);
  }

  lemma SweepStaysInStep(p: Parser, w0: World, w: World, n: nat, f: Bytes)
    requires NeverExtended(p, f) && InStep(p, w0, w, f)
    ensures InStep(p, w0, Swept(p, w, n), f)
  {
    var k, calls := SweptIs(p, w, n, f);
    MovedStaysInStep(p, w0, w, k, calls, f);
  }

  lemma {:induction false} FilesGrow(p: Parser, w: World, events: seq<Event>)
    requires events != []
    ensures Run(p, w, events[..|events| - 1]).file <= Run(p, w, events).file
  {
  }

  /**
   * The incremental reader is the batch reader: however appends and sweeps interleave, short reads
   * and failed reads included, the cursor stands between lines and the calls reported are those of
   * a single pass over the bytes behind it, each once, in order.
   */
  lemma {:induction false} IncrementalIsBatch(p: Parser, w0: World, events: seq<Event>, f: Bytes)
    requires NeverExtended(p, f) && w0.file <= f && Run(p, w0, events).file <= f
    requires w0.offset <= |w0.file| && Boundary(f, w0.offset)
    ensures InStep(p, w0, Run(p, w0, events), f)
  {
    if events == [] {
      assert f[w0.offset..w0.offset] == [];
      CallsOfLine(p, []);
      assert w0.log + [] == w0.log;
      assert Ids([]) == {};
    } else {
      var n := |events| - 1;
      FilesGrow(p, w0, events);
      IncrementalIsBatch(p, w0, events[..n], f);
      var w := Run(p, w0, events[..n]);
      if events[n].Sweep? && events[n].readOk && |w.file| > w.offset {
        SweepStaysInStep(p, w0, w, events[n].n, f);
      }
    }
  }

  /** From an empty start, once the cursor reaches the end, the log is that of one pass over the file. */
  lemma CaughtUp(p: Parser, events: seq<Event>)
    requires var w := Run(p, World([], 0, {}, []), events); NeverExtended(p, w.file) && w.offset == |w.file|
    ensures var w := Run(p, World([], 0, {}, []), events);
            w.log == NewCalls({}, Calls(p, w.file)) && w.seen == Ids(Calls(p, w.file))
  {
    var w := Run(p, World([], 0, {}, []), events);
    IncrementalIsBatch(p, World([], 0, {}, []), events, w.file);
    assert w.file[0..|w.file|] == w.file;
    assert {} + Ids(Calls(p, w.file)) == Ids(Calls(p, w.file));
  }

  /* ---------- a sweep told from the last newline of what it read ---------- */

  /** The last line of `buf` that has an end has it at `e`. */
  ghost predicate LastLineEnds(buf: Bytes, e: nat) {
    && e <= |buf| && (e == 0 || buf[e - 1] == NL)
    && forall j :: e <= j < |buf| ==> buf[j] != NL
  }

  /**
   * The cursor moves over the whole lines, and over the rest too iff it trims to a non-empty complete text;
   * then that text is parsed with the lines.
   */
  ghost predicate SweepTold(p: Parser, buf: Bytes, e: nat, moved: nat, calls: seq<Call>) {
    && LastLineEnds(buf, e)
    && var rest := p.trim(buf[e..]);
       var lines := if e == 0 then [] else Calls(p, buf[..e]);
       if rest != [] && p.complete(rest) then moved == |buf| && calls == lines + p.calls(rest)
       else moved == e && calls == lines
  }

  lemma WholeLinesEnd(buf: Bytes)
    ensures LastLineEnds(buf, WholeLines(buf))
  {
    var e := WholeLines(buf);
    forall j | e <= j < |buf| ensures buf[j] != NL {
      assert buf[e..][j - e] == buf[j];
    }
  }

  lemma SweepIsTold(p: Parser, buf: Bytes, calls: seq<Call>)
    requires calls == CallsOf(p, SweptLines(p, buf))
    ensures SweepTold(p, buf, WholeLines(buf), Consumed(p, buf), calls)
  {
    var e := WholeLines(buf);
    var rest := p.trim(buf[e..]);
    var lines := if e > 0 then Split(buf[..e]) else [];
    WholeLinesEnd(buf);
    CallsOfLines(p, lines, [rest]);
    assert [rest][1..] == [];
    assert lines + [] == lines;
  }

  /** One read of up to `n` bytes returns `buf`. */
  ghost predicate Reads(file: Bytes, offset: nat, n: nat, buf: Bytes) {
    && offset + |buf| <= |file| && buf == file[offset..offset + |buf|]
    && |buf| == if n < |file| - offset then n else |file| - offset
  }

  /** From `w` to `v`: a sweep that read `buf`, moved as told and reported exactly what was new. */
  ghost predicate SweepDid(p: Parser, w: World, v: World, buf: Bytes, e: nat, calls: seq<Call>) {
    && v.file == w.file && w.offset <= v.offset && SweepTold(p, buf, e, v.offset - w.offset, calls)
    && v.seen == w.seen + Ids(calls) && Ids(v.log) == Ids(w.log) + (Ids(calls) - w.seen)
  }

  lemma SweptIsTold(p: Parser, w: World, n: nat, buf: Bytes) returns (e: nat, calls: seq<Call>)
    requires w.offset <= |w.file| && Reads(w.file, w.offset, n, buf)
    ensures SweepDid(p, w, Swept(p, w, n), buf, e, calls)
  {
    assert buf == Window(w.file, w.offset, n);
    e, calls := WholeLines(buf), CallsOf(p, SweptLines(p, buf));
    SweepIsTold(p, buf, calls);
    ReportedExactlyOnce(w.seen, calls);
    IdsOfAppend(w.log, NewCalls(w.seen, calls));
  }

  /** The same of a step of a run. */
  lemma StepIsTold(p: Parser, w: World, n: nat, buf: Bytes) returns (e: nat, calls: seq<Call>)
    requires w.offset < |w.file| && Reads(w.file, w.offset, n, buf)
    ensures SweepDid(p, w, Step(p, w, Sweep(n, true)), buf, e, calls)
  {
    var v := Swept(p, w, n);
    e, calls := SweptIsTold(p, w, n, buf);
    assert Step(p, w, Sweep(n, true)) == v;
  }

  lemma OneLastLineEnd(buf: Bytes, e: nat, e': nat)
    requires LastLineEnds(buf, e) && LastLineEnds(buf, e')
    ensures e == e'
  {
  }

  /** The cursor reaches the end of what was read iff that ends with a newline or with a complete text. */
  lemma ReachesEndIff(p: Parser, buf: Bytes, e: nat, moved: nat, calls: seq<Call>)
    requires SweepTold(p, buf, e, moved, calls) && buf != []
    ensures moved == |buf| <==>
            buf[|buf| - 1] == NL || (p.trim(buf[e..]) != [] && p.complete(p.trim(buf[e..])))
  {
  }

  /** A full sweep reaches the end iff the file ends with a newline or what follows its last one is complete. */
  lemma FullSweepCatchesUp(p: Parser, w: World, n: nat, buf: Bytes, e: nat)
    requires w.offset < |w.file| && n >= |w.file| - w.offset && buf == w.file[w.offset..] && LastLineEnds(buf, e)
    ensures Step(p, w, Sweep(n, true)).offset == |w.file| <==>
            w.file[|w.file| - 1] == NL || (p.trim(buf[e..]) != [] && p.complete(p.trim(buf[e..])))
  {
    var e', calls := StepIsTold(p, w, n, buf);
    var v := Step(p, w, Sweep(n, true));
    OneLastLineEnd(buf, e, e');
    ReachesEndIff(p, buf, e, v.offset - w.offset, calls);
    assert buf[|buf| - 1] == w.file[|w.file| - 1];
  }

  /* ---------- the sweep as it is written ---------- */

  datatype Cursor = Cursor(path: string, offset: nat)

  /** A file as one sweep finds it: its bytes and how many of the requested ones the read returns. */
  datatype Source = Source(bytes: Bytes, readable: nat, readOk: bool)

  /** Where a sweep starts: at the cursor, or at zero for another path or a file that shrank. */
  function StartOf(cursor: Option<Cursor>, path: string, size: nat): nat {
    if cursor.Some? && cursor.value.path == path && size >= cursor.value.offset then cursor.value.offset else 0
  }

  /** The cursor is of this file and stands inside it. */
  predicate Follows(cursor: Option<Cursor>, path: string, file: Bytes) {
    cursor.None? || (cursor.value.path == path && cursor.value.offset <= |file|)
  }

  /** Another path, or a file that shrank below the cursor. */
  predicate StartsOver(cursor: Option<Cursor>, path: string, size: nat) {
    cursor.None? || cursor.value.path != path || cursor.value.offset > size
  }

  /** The bytes from `start` were read, the cursor moved to `next` as told, and the calls were met. */
  ghost predicate SweptFrom(p: Parser, source: Source, start: nat, next: nat, seen: set<string>, seen': set<string>) {
    exists buf, e, moved, calls :: SweepTold(p, buf, e, moved, calls) &&
      Reads(source.bytes, start, source.readable, buf) && next == start + moved && seen' == seen + Ids(calls)
  }

  /** What a sweep from `start` answers and leaves behind: a step of the run, moved as told. */
  ghost predicate Answers(p: Parser, source: Source, start: nat, seen: set<string>, said: seq<Call>, live: bool,
                          next: nat, emitted: bool, seen': set<string>, said': seq<Call>)
    requires start <= |source.bytes| && source.readOk
  {
    && SweptFrom(p, source, start, next, seen, seen')
    && var v := Swept(p, World(source.bytes, start, seen, said), source.readable);
       next == v.offset && seen' == v.seen && said' == (if live then v.log else said) &&
       (emitted <==> live && v.log != said)
  }

  lemma SweepAnswers(p: Parser, source: Source, start: nat, seen: set<string>, said: seq<Call>, live: bool,
                     buf: Bytes, emitted: bool, seen': set<string>, said': seq<Call>)
    requires start <= |source.bytes| && source.readOk && buf == Window(source.bytes, start, source.readable)
    requires Reported(seen, said, CallsOf(p, SweptLines(p, buf)), live, seen', said', emitted)
    ensures Answers(p, source, start, seen, said, live, start + Consumed(p, buf), emitted, seen', said')
  {
    var calls := CallsOf(p, SweptLines(p, buf));
    SweepIsTold(p, buf, calls);
    assert Reads(source.bytes, start, source.readable, buf);
  }

  lemma OneMoreLine(p: Parser, lines: seq<Bytes>, i: nat)
    requires i < |lines|
    ensures CallsOf(p, lines[..i + 1]) == CallsOf(p, lines[..i]) + p.calls(lines[i])
  {
    assert lines[..i + 1] == lines[..i] + [lines[i]];
    CallsOfLines(p, lines[..i], [lines[i]]);
    assert [lines[i]][1..] == [];
  }

  lemma OneMoreCall(seen: set<string>, calls: seq<Call>, i: nat)
    requires i < |calls|
    ensures Ids(calls[..i + 1]) == Ids(calls[..i]) + {calls[i].id}
    ensures NewCalls(seen, calls[..i + 1]) ==
            NewCalls(seen, calls[..i]) + if calls[i].id in seen + Ids(calls[..i]) then [] else [calls[i]]
  {
    assert calls[..i + 1][..i] == calls[..i];
    assert calls[..i + 1] == calls[..i] + [calls[i]];
  }

  /** From `seen0` and `said0`, reporting `calls` led to `seen` and `said`. */
  ghost predicate Reported(seen0: set<string>, said0: seq<Call>, calls: seq<Call>, live: bool, seen: set<string>,
                           said: seq<Call>, emitted: bool) {
    && seen == seen0 + Ids(calls)
    && said == (if live then said0 + NewCalls(seen0, calls) else said0)
    && (emitted <==> live && NewCalls(seen0, calls) != [])
  }

  lemma NothingReported(seen: set<string>, said: seq<Call>, live: bool)
    ensures Reported(seen, said, [], live, seen, said, false)
  {
    assert said + [] == said;
  }

  lemma ReportedThen(seen0: set<string>, said0: seq<Call>, before: seq<Call>, seen: set<string>, said: seq<Call>,
                     e: bool,
                     now: seq<Call>, seen': set<string>, said': seq<Call>, e': bool, live: bool)
    requires Reported(seen0, said0, before, live, seen, said, e) && Reported(seen, said, now, live, seen', said', e')
    ensures Reported(seen0, said0, before + now, live, seen', said', e || e')
  {
    NewCallsOfAppend(seen0, before, now);
    IdsOfAppend(before, now);
  }

  class Sweeper {
    const p: Parser
    var seenIds: set<string>
    /** The calls handed to `onToolUse`. */
    var log: seq<Call>

    constructor (p: Parser)
      ensures this.p == p && seenIds == {} && log == []
    {
      this.p, seenIds, log := p, {}, [];
    }

    /** The double loop: marks what is new and, unless priming, reports it. */
    method Report(lines: seq<Bytes>, live: bool) returns (emitted: bool)
      modifies this
      ensures Reported(old(seenIds), old(log), CallsOf(p, lines), live, seenIds, log, emitted)
    {
      emitted := false;
      NothingReported(seenIds, log, live);
      assert lines[..0] == [];
      for i := 0 to |lines|
        invariant Reported(old(seenIds), old(log), CallsOf(p, lines[..i]), live, seenIds, log, emitted)
      {
        ghost var seen, said := seenIds, log;
        var e := ReportLine(p.calls(lines[i]), live);
        OneMoreLine(p, lines, i);
        ReportedThen(old(seenIds), old(log), CallsOf(p, lines[..i]), seen, said, emitted, p.calls(lines[i]), seenIds,
          log, e, live);
        emitted := emitted || e;
      }
      assert lines[..|lines|] == lines;
    }

    method ReportLine(calls: seq<Call>, live: bool) returns (emitted: bool)
      modifies this
      ensures Reported(old(seenIds), old(log), calls, live, seenIds, log, emitted)
    {
      emitted := false;
      NothingReported(seenIds, log, live);
      for i := 0 to |calls|
        invariant Reported(old(seenIds), old(log), calls[..i], live, seenIds, log, emitted)
      {
        OneMoreCall(old(seenIds), calls, i);
        if calls[i].id in seenIds {
          continue;
        }
        seenIds := seenIds + {calls[i].id};
        if live {
          log := log + [calls[i]];
          emitted := true;
        }
      }
      assert calls[..|calls|] == calls;
    }

    /** `sweepGrokChatToolCallsFromPath`; `None` when the file is gone or cannot be read. */
    method Sweep(path: string, source: Option<Source>, cursor: Option<Cursor>, live: bool)
      returns (r: Option<(Cursor, bool)>)
      modifies this
      ensures r.None? <==>
              source.None? ||
              (|source.value.bytes| > StartOf(cursor, path, |source.value.bytes|) && !source.value.readOk)
      ensures r.None? ==> seenIds == old(seenIds) && log == old(log)
      ensures r.Some? ==> r.value.0.path == path
      ensures r.Some? ==>
                var start := StartOf(cursor, path, |source.value.bytes|);
                if |source.value.bytes| <= start
                then r.value.0.offset == start && !r.value.1 && seenIds == old(seenIds) && log == old(log)
                else source.value.readOk && Answers(p, source.value, start, old(seenIds), old(log), live,
                                                    r.value.0.offset, r.value.1, seenIds, log)
      ensures r.Some? && StartsOver(cursor, path, |source.value.bytes|) && source.value.bytes != [] ==>
                source.value.readOk && Answers(p, source.value, 0, old(seenIds), old(log), live,
                                               r.value.0.offset, r.value.1, seenIds, log)
    {
      if source.None? {
        return None;
      }
      var size := |source.value.bytes|;
      var start := StartOf(cursor, path, size);
      if size <= start {
        return Some((Cursor(path, start), false));
      }
      if !source.value.readOk {
        return None;
      }
      var buf := Window(source.value.bytes, start, source.value.readable);
      var lines := SweptLines(p, buf);
      var emitted := Report(lines, live);
      SweepAnswers(p, source.value, start, old(seenIds), old(log), live, buf, emitted, seenIds, log);
      r := Some((Cursor(path, start + Consumed(p, buf)), emitted));
    }

    /** What the sweeper has done of a file, from a cursor. */
    function At(file: Bytes, offset: nat): World
      reads this
    {
      World(file, offset, seenIds, log)
    }

    /** One sweep of the file as it is now; a failed read leaves the cursor. */
    method SweepNow(path: string, file: Bytes, n: nat, readOk: bool, cursor: Option<Cursor>, ghost offset: nat)
      returns (next: Option<Cursor>, ghost after: nat)
      requires offset == StartOf(cursor, path, |file|) && Follows(cursor, path, file)
      modifies this
      ensures after == StartOf(next, path, |file|) && Follows(next, path, file)
      ensures At(file, after) == Step(p, old(At(file, offset)), Event.Sweep(n, readOk))
    {
      var r := Sweep(path, Some(Source(file, n, readOk)), cursor, true);
      next := if r.Some? then Some(r.value.0) else cursor;
      after := StartOf(next, path, |file|);
    }

    /**
     * A life of the reader on one growing file: appends by the writer, sweeps by the timer. The object does
     * what the run of the model does, so what it has reported is what one pass over the bytes behind its
     * cursor reports, whatever the file becomes.
     */
    method Follow(path: string, start: Bytes, events: seq<Event>) returns (file: Bytes, ghost offset: nat)
      modifies this
      ensures At(file, offset) == Run(p, old(At(start, 0)), events)
      ensures forall f :: NeverExtended(p, f) && start <= f && file <= f ==>
              InStep(p, old(At(start, 0)), At(file, offset), f)
    {
      var cursor: Option<Cursor> := None;
      file, offset := start, 0;
      for i := 0 to |events|
        invariant offset == StartOf(cursor, path, |file|) <= |file|
        invariant Follows(cursor, path, file)
        invariant At(file, offset) == Run(p, old(At(start, 0)), events[..i])
      {
        assert events[..i + 1][..i] == events[..i];
        match events[i] {
          case Append(bytes) =>
            file := file + bytes;
          case Sweep(n, readOk) =>
            cursor, offset := SweepNow(path, file, n, readOk, cursor, offset);
        }
      }
      assert events[..|events|] == events;
      forall f | NeverExtended(p, f) && start <= f && file <= f
          ensures InStep(p, old(At(start, 0)), At(file, offset), f) {
        IncrementalIsBatch(p, old(At(start, 0)), events, f);
      }
    }
  }

  /** Shrunk, rewritten or another file: whatever a sweep finds, no id is reported twice. */
  lemma NeverReportedTwice(p: Parser, w: World, n: nat)
    requires w.offset <= |w.file| && Ids(w.log) <= w.seen && forall i, j :: 0 <= i < j < |w.log| ==>
             w.log[i].id != w.log[j].id
    ensures var v := Swept(p, w, n);
            Ids(v.log) <= v.seen && forall i, j :: 0 <= i < j < |v.log| ==> v.log[i].id != v.log[j].id
  {
    var calls := CallsOf(p, SweptLines(p, Window(w.file, w.offset, n)));
    ReportedExactlyOnce(w.seen, calls);
    var news := NewCalls(w.seen, calls);
    IdsOfAppend(w.log, news);
    forall i, j | 0 <= i < |w.log| && 0 <= j < |news| ensures w.log[i].id != news[j].id {
      assert w.log[i].id in Ids(w.log) && news[j].id in Ids(news);
    }
  }
}
