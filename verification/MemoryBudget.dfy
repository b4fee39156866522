/**
 * The hot-set budget (src/memory-utils.ts): each block first fills its guaranteed share,
 * then the slack is lent in block order. Shares are exact percentages of the budget.
 */
module MemoryBudget {
  import opened Common

  datatype Entry = Entry(kind: string, text: string, source: Option<string>)

  datatype BlockSpec = BlockSpec(name: string, heading: string, kinds: seq<string>, sharePercent: nat)

  /** The blocks in lending order, which is also the order of the sections. */
  const MEMORY_BLOCKS: seq<BlockSpec> := [
    BlockSpec("decisions", "Decisões", ["decision"], 30),
    BlockSpec("preferences", "Preferências do dono", ["preference"], 20),
    BlockSpec("experiences", "Experiências (como resolver)", ["experience"], 10),
    BlockSpec("references", "Referências", ["reference"], 10),
    BlockSpec("state", "Estado & factos", ["fact"], 30)
  ]

  const BLOCKS: nat := 5

  /** The block of a kind; unknown kinds fall into the last one. */
  function BlockOf(kind: string): (b: nat)
    ensures b < BLOCKS
    ensures kind in MEMORY_BLOCKS[b].kinds ||
            (b == BLOCKS - 1 && forall c :: 0 <= c < BLOCKS ==> kind !in MEMORY_BLOCKS[c].kinds)
  {
    if kind == "decision" then 0
    else if kind == "preference" then 1
    else if kind == "experience" then 2
    else if kind == "reference" then 3
    else 4
  }

  /** A pin of a human ("user:" source) ranks before the agent's own. */
  predicate HumanPin(e: Entry) {
    e.source.Some? && "user:" <= e.source.value
  }

  function SharePercent(b: nat): (p: nat)
    ensures b < BLOCKS ==> p == MEMORY_BLOCKS[b].sharePercent
  {
    if b == 0 then 30 else if b == 1 then 20 else if b == 2 then 10 else if b == 3 then 10 else 30
  }

  /** The guaranteed share of a block. */
  function Share(b: nat, budget: int): int {
    budget * SharePercent(b) / 100
  }

  function Len(e: Entry): nat {
    |e.text|
  }

  /** What a list is weighed by: its characters, or its non-empty entries. */
  datatype Measure = Chars | NonEmpty

  function Weigh(e: Entry, m: Measure): nat {
    if m == Chars then Len(e) else if Len(e) > 0 then 1 else 0
  }

  function Total(es: seq<Entry>, m: Measure): nat {
    if es == [] then 0 else Total(es[..|es| - 1], m) + Weigh(es[|es| - 1], m)
  }

  function Sum(es: seq<Entry>): nat {
    Total(es, Chars)
  }

  function Min(a: int, b: int): int {
    if a < b then a else b
  }

  function Max(a: int, b: int): int {
    if a < b then b else a
  }

  /* ---------- the queue of a block ---------- */

  /** The entries of one block, in input order. */
  function InBlock(entries: seq<Entry>, b: nat): seq<Entry> {
    if entries == [] then []
    else
      var init, e := InBlock(entries[..|entries| - 1], b), entries[|entries| - 1];
      if BlockOf(e.kind) == b then init + [e] else init
  }

  function Pins(es: seq<Entry>, human: bool): seq<Entry> {
    if es == [] then []
    else
      var init, e := Pins(es[..|es| - 1], human), es[|es| - 1];
      if HumanPin(e) == human then init + [e] else init
  }

  /** The stable sort by pin rank; inside one block the kind never breaks a tie. */
  function Ranked(es: seq<Entry>): seq<Entry> {
    Pins(es, true) + Pins(es, false)
  }

  function Queue(entries: seq<Entry>, b: nat): seq<Entry> {
    Ranked(InBlock(entries, b))
  }

  lemma {:induction false} PinsAre(es: seq<Entry>, human: bool)
    ensures forall e :: e in Pins(es, human) ==> HumanPin(e) == human
    ensures Pins(es, !human) == [] ==> Pins(es, human) == es
  {
    if es != [] {
      PinsAre(es[..|es| - 1], human);
    }
  }

  lemma {:induction false} PinsSplit(es: seq<Entry>)
    ensures multiset(es) == multiset(Pins(es, true)) + multiset(Pins(es, false))
    ensures |es| == |Pins(es, true)| + |Pins(es, false)|
  {
    if es != [] {
      var init, e := es[..|es| - 1], es[|es| - 1];
      PinsSplit(init);
      assert multiset(es) == multiset(init) + multiset{e} by {
        assert es == init + [e];
      }
      assert multiset(Pins(es, HumanPin(e))) == multiset(Pins(init, HumanPin(e))) + multiset{e};
      assert Pins(es, !HumanPin(e)) == Pins(init, !HumanPin(e));
    }
  }

  lemma {:induction false} PinsOfAppend(a: seq<Entry>, b: seq<Entry>, human: bool)
    ensures Pins(a + b, human) == Pins(a, human) + Pins(b, human)
  {
    if b == [] {
      assert a + b == a;
    } else {
      PinsOfAppend(a, b[..|b| - 1], human);
      assert (a + b)[..|a + b| - 1] == a + b[..|b| - 1];
    }
  }

  lemma {:induction false} PinsOfUniform(es: seq<Entry>, human: bool)
    requires forall e :: e in es ==> HumanPin(e) == human
    ensures Pins(es, human) == es && Pins(es, !human) == []
  {
    if es != [] {
      PinsOfUniform(es[..|es| - 1], human);
    }
  }

  /** The source is a person's: "user:" and a name. */
  ghost predicate FromUser(e: Entry) {
    exists name: string :: e.source == Some("user:" + name)
  }

  lemma HumanPinIsFromUser(e: Entry)
    ensures HumanPin(e) <==> FromUser(e)
  {
    if HumanPin(e) {
      assert e.source.value == "user:" + e.source.value[5..];
    }
  }

  /** Ranking is a stable sort: a permutation, human pins first, equal ranks in input order. */
  lemma RankedIsStableSort(es: seq<Entry>)
    ensures multiset(Ranked(es)) == multiset(es) && |Ranked(es)| == |es|
    ensures forall i, j :: 0 <= i < |es| && 0 <= j < |es| && FromUser(Ranked(es)[i]) && !FromUser(Ranked(es)[j]) ==>
              i < j
    ensures forall human :: Pins(Ranked(es), human) == Pins(es, human)
  {
    PinsSplit(es);
    RankedInOrder(es);
    forall i, j | 0 <= i < |es| && 0 <= j < |es| && FromUser(Ranked(es)[i]) && !FromUser(Ranked(es)[j]) ensures i < j {
      HumanPinIsFromUser(Ranked(es)[i]);
      HumanPinIsFromUser(Ranked(es)[j]);
    }
    forall human ensures Pins(Ranked(es), human) == Pins(es, human) {
      RankedIsStable(es, human);
    }
  }

  lemma RankedIsStable(es: seq<Entry>, human: bool)
    ensures Pins(Ranked(es), human) == Pins(es, human)
  {
    PinsAre(es, true);
    PinsAre(es, false);
    PinsOfAppend(Pins(es, true), Pins(es, false), human);
    PinsOfUniform(Pins(es, true), true);
    PinsOfUniform(Pins(es, false), false);
  }

  lemma RankedInOrder(es: seq<Entry>)
    ensures |Ranked(es)| == |es|
    ensures forall i, j :: 0 <= i < j < |es| && HumanPin(Ranked(es)[j]) ==> HumanPin(Ranked(es)[i])
  {
    PinsSplit(es);
    PinsAre(es, true);
    PinsAre(es, false);
    var n := |Pins(es, true)|;
    forall i | 0 <= i < |es| ensures HumanPin(Ranked(es)[i]) <==> i < n {
      assert Ranked(es)[i] in Pins(es, i < n);
    }
  }

  /** Every entry is in its own block, as often as in the input, and in no other. */
  lemma {:induction false} BlocksPartition(entries: seq<Entry>, b: nat)
    ensures forall e :: multiset(InBlock(entries, b))[e] == if BlockOf(e.kind) == b then multiset(entries)[e] else 0
  {
    if entries != [] {
      BlocksPartition(entries[..|entries| - 1], b);
      assert entries == entries[..|entries| - 1] + [entries[|entries| - 1]];
    }
  }

  lemma {:induction false} BlockSizes(entries: seq<Entry>)
    ensures |InBlock(entries, 0)| + |InBlock(entries, 1)| + |InBlock(entries, 2)| + |InBlock(entries, 3)| +
            |InBlock(entries, 4)| == |entries|
  {
    if entries != [] {
      BlockSizes(entries[..|entries| - 1]);
    }
  }

  /* ---------- filling one block ---------- */

  /** Placed and left entries of one pass, with the counters after it. */
  datatype Fill = Fill(placed: seq<Entry>, left: seq<Entry>, blockUsed: nat, used: nat)

  /** An entry enters when it fits the cap and the budget, or when nothing has been used yet. */
  predicate Enters(len: nat, blockUsed: nat, used: nat, cap: int, budget: int) {
    (blockUsed + len <= Min(cap, budget) && used + len <= budget) || (blockUsed == 0 && used == 0)
  }

  function Place(queue: seq<Entry>, cap: int, budget: int, blockUsed: nat, used: nat): Fill {
    if queue == [] then Fill([], [], blockUsed, used)
    else
      var f, e := Place(queue[..|queue| - 1], cap, budget, blockUsed, used), queue[|queue| - 1];
      if Enters(Len(e), f.blockUsed, f.used, cap, budget)
      then Fill(f.placed + [e], f.left, f.blockUsed + Len(e), f.used + Len(e))
      else f.(left := f.left + [e])
  }

  /** Entry `k` of the queue enters during the pass. */
  predicate EntersAt(queue: seq<Entry>, k: nat, cap: int, budget: int, blockUsed: nat, used: nat)
    requires k < |queue|
  {
    var f := Place(queue[..k], cap, budget, blockUsed, used);
    Enters(Len(queue[k]), f.blockUsed, f.used, cap, budget)
  }

  /** A pass neither loses nor invents entries. */
  lemma {:induction false} PlaceSplits(queue: seq<Entry>, cap: int, budget: int, blockUsed: nat, used: nat)
    ensures var f := Place(queue, cap, budget, blockUsed, used);
            multiset(queue) == multiset(f.placed) + multiset(f.left) && |queue| == |f.placed| + |f.left|
  {
    if queue != [] {
      var init, e := queue[..|queue| - 1], queue[|queue| - 1];
      PlaceSplits(init, cap, budget, blockUsed, used);
      assert multiset(queue) == multiset(init) + multiset{e} by {
        assert queue == init + [e];
      }
    }
  }

  /** The counters of a pass are the lengths placed. */
  lemma {:induction false} PlaceCounts(queue: seq<Entry>, cap: int, budget: int, blockUsed: nat, used: nat)
    ensures var f := Place(queue, cap, budget, blockUsed, used);
            f.used == used + Sum(f.placed) && f.blockUsed == blockUsed + Sum(f.placed)
  {
    if queue != [] {
      PlaceCounts(queue[..|queue| - 1], cap, budget, blockUsed, used);
    }
  }

  lemma {:induction false} PlaceGrows(queue: seq<Entry>, i: nat, j: nat, cap: int, budget: int, blockUsed: nat,
                                      used: nat)
    requires i <= j <= |queue|
    ensures Place(queue[..i], cap, budget, blockUsed, used).used <= Place(queue[..j], cap, budget, blockUsed, used).used
    ensures Place(queue[..i], cap, budget, blockUsed, used).blockUsed <= Place(queue[..j], cap, budget, blockUsed,
            used).blockUsed
    ensures Place(queue[..i], cap, budget, blockUsed, used).left <= Place(queue[..j], cap, budget, blockUsed, used).left
  {
    if i < j {
      PlaceGrows(queue, i, j - 1, cap, budget, blockUsed, used);
      assert queue[..j][..j - 1] == queue[..j - 1];
    }
  }

  /** Whatever a pass leaves out would not fit even after it. */
  lemma {:induction false} LeftDoesNotFit(queue: seq<Entry>, cap: int, budget: int, blockUsed: nat, used: nat)
    ensures var f := Place(queue, cap, budget, blockUsed, used);
            forall e :: e in f.left ==> f.blockUsed + Len(e) > Min(cap, budget) || f.used + Len(e) > budget
  {
    if queue != [] {
      LeftDoesNotFit(queue[..|queue| - 1], cap, budget, blockUsed, used);
    }
  }

  /** Inside one pass, an entry that enters never overtakes an earlier one that is not longer. */
  lemma PassDominance(queue: seq<Entry>, i: nat, j: nat, cap: int, budget: int, blockUsed: nat, used: nat)
    requires i < j < |queue| && Len(queue[i]) <= Len(queue[j])
    requires EntersAt(queue, j, cap, budget, blockUsed, used)
    ensures EntersAt(queue, i, cap, budget, blockUsed, used)
  {
    PlaceGrows(queue, i, j, cap, budget, blockUsed, used);
  }

  /** An entry that does not enter stands in the remainder, after the earlier ones left out. */
  lemma {:induction false} LeftAt(queue: seq<Entry>, k: nat, cap: int, budget: int, blockUsed: nat, used: nat)
    requires k < |queue| && !EntersAt(queue, k, cap, budget, blockUsed, used)
    ensures var p := |Place(queue[..k], cap, budget, blockUsed, used).left|;
            var left := Place(queue, cap, budget, blockUsed, used).left;
            p < |left| && left[p] == queue[k]
    ensures forall i :: 0 <= i < k && !EntersAt(queue, i, cap, budget, blockUsed, used) ==>
              |Place(queue[..i], cap, budget, blockUsed, used).left| < |Place(queue[..k], cap, budget, blockUsed,
                used).left|
  {
    assert queue[..k + 1][..k] == queue[..k];
    assert queue[..|queue|] == queue;
    PlaceGrows(queue, k + 1, |queue|, cap, budget, blockUsed, used);
    forall i | 0 <= i < k && !EntersAt(queue, i, cap, budget, blockUsed, used)
      ensures |Place(queue[..i], cap, budget, blockUsed, used).left| < |Place(queue[..k], cap, budget, blockUsed,
              used).left|
    {
      assert queue[..i + 1][..i] == queue[..i];
      PlaceGrows(queue, i + 1, k, cap, budget, blockUsed, used);
    }
  }

  /** A queue that fits as a whole is placed as a whole. */
  lemma {:induction false} WholeQueueFits(queue: seq<Entry>, cap: int, budget: int, blockUsed: nat, used: nat)
    requires blockUsed + Sum(queue) <= Min(cap, budget) && used + Sum(queue) <= budget
    ensures Place(queue, cap, budget, blockUsed, used) == Fill(queue, [], blockUsed + Sum(queue), used + Sum(queue))
  {
    if queue != [] {
      WholeQueueFits(queue[..|queue| - 1], cap, budget, blockUsed, used);
    }
  }

  /** Empty texts at the very start are always placed. */
  lemma {:induction false} EmptyTextsEnter(queue: seq<Entry>, cap: int, budget: int)
    requires Sum(queue) == 0
    ensures Place(queue, cap, budget, 0, 0) == Fill(queue, [], 0, 0)
  {
    if queue != [] {
      EmptyTextsEnter(queue[..|queue| - 1], cap, budget);
    }
  }

  /* ---------- both passes over all blocks ---------- */

  /** The queue and the guaranteed share of each block, in lending order. */
  datatype PlanData = Plan(queues: seq<seq<Entry>>, caps: seq<int>, budget: int)

  type Plan = p: PlanData | |p.queues| == |p.caps| > 0 witness Plan([[]], [0], 0)

  /** First pass: block `b` fills up to its share. */
  function First(p: Plan, b: nat): Fill
    requires b < |p.queues|
  {
    Place(p.queues[b], p.caps[b], p.budget, 0, if b == 0 then 0 else First(p, b - 1).used)
  }

  /** Second pass: what block `b` left out competes for the slack. */
  function Second(p: Plan, b: nat): Fill
    requires b < |p.queues|
  {
    Place(First(p, b).left, p.budget, p.budget, First(p, b).blockUsed,
          if b == 0 then First(p, |p.queues| - 1).used else Second(p, b - 1).used)
  }

  /** What is used when block `b` starts its first pass. */
  function Before1(p: Plan, b: nat): nat
    requires b < |p.queues|
  {
    if b == 0 then 0 else First(p, b - 1).used
  }

  /** What is used when block `b` starts its second pass. */
  function Before2(p: Plan, b: nat): nat
    requires b < |p.queues|
  {
    if b == 0 then First(p, |p.queues| - 1).used else Second(p, b - 1).used
  }

  function Used(p: Plan): nat {
    Second(p, |p.queues| - 1).used
  }

  function Kept(p: Plan, b: nat): seq<Entry>
    requires b < |p.queues|
  {
    First(p, b).placed + Second(p, b).placed
  }

  function Dropped(p: Plan, b: nat): seq<Entry>
    requires b < |p.queues|
  {
    Second(p, b).left
  }

  lemma {:induction false} TotalOfAppend(a: seq<Entry>, b: seq<Entry>, m: Measure)
    ensures Total(a + b, m) == Total(a, m) + Total(b, m)
  {
    if b == [] {
      assert a + b == a;
    } else {
      TotalOfAppend(a, b[..|b| - 1], m);
      assert (a + b)[..|a + b| - 1] == a + b[..|b| - 1];
    }
  }

  /** Per block, kept and dropped entries make up the queue. */
  lemma BlockConserves(p: Plan, b: nat)
    requires b < |p.queues|
    ensures multiset(p.queues[b]) == multiset(Kept(p, b)) + multiset(Dropped(p, b))
    ensures |p.queues[b]| == |Kept(p, b)| + |Dropped(p, b)|
  {
    var f := First(p, b);
    PlaceSplits(p.queues[b], p.caps[b], p.budget, 0, Before1(p, b));
    PlaceSplits(f.left, p.budget, p.budget, f.blockUsed, Before2(p, b));
  }

  /** The weight placed in the first pass up to block `c`. */
  function FirstTotal(p: Plan, c: nat, m: Measure): nat
    requires c < |p.queues|
  {
    (if c == 0 then 0 else FirstTotal(p, c - 1, m)) + Total(First(p, c).placed, m)
  }

  function SecondTotal(p: Plan, c: nat, m: Measure): nat
    requires c < |p.queues|
  {
    (if c == 0 then 0 else SecondTotal(p, c - 1, m)) + Total(Second(p, c).placed, m)
  }

  /** The weight kept in the blocks up to `c`. */
  function KeptTotal(p: Plan, c: nat, m: Measure): nat
    requires c < |p.queues|
  {
    (if c == 0 then 0 else KeptTotal(p, c - 1, m)) + Total(Kept(p, c), m)
  }

  lemma {:induction false} KeptIsBothPasses(p: Plan, c: nat, m: Measure)
    requires c < |p.queues|
    ensures KeptTotal(p, c, m) == FirstTotal(p, c, m) + SecondTotal(p, c, m)
  {
    if c > 0 {
      KeptIsBothPasses(p, c - 1, m);
    }
    TotalOfAppend(First(p, c).placed, Second(p, c).placed, m);
  }

  /** At most the budget is used, unless a single entry is all that counts; nothing used, nothing counted. */
  ghost predicate WithinBudget(used: nat, nonEmpty: nat, budget: int) {
    (used <= Max(budget, 0) || nonEmpty == 1) && (used == 0 ==> nonEmpty == 0)
  }

  lemma OneMoreWithin(placed: seq<Entry>, e: Entry, cap: int, budget: int, blockUsed: nat, used: nat, nonEmpty: nat)
    requires WithinBudget(used, nonEmpty + Total(placed, NonEmpty), budget)
    requires Enters(Len(e), blockUsed, used, cap, budget)
    ensures WithinBudget(used + Len(e), nonEmpty + Total(placed + [e], NonEmpty), budget)
  {
    assert (placed + [e])[..|placed|] == placed;
  }

  lemma {:induction false} PlaceStaysWithin(queue: seq<Entry>, cap: int, budget: int, blockUsed: nat, used: nat,
                                            nonEmpty: nat)
    requires WithinBudget(used, nonEmpty, budget)
    ensures var f := Place(queue, cap, budget, blockUsed, used);
            WithinBudget(f.used, nonEmpty + Total(f.placed, NonEmpty), budget)
  {
    if queue == [] {
      assert Total([], NonEmpty) == 0;
    } else {
      var f, e := Place(queue[..|queue| - 1], cap, budget, blockUsed, used), queue[|queue| - 1];
      PlaceStaysWithin(queue[..|queue| - 1], cap, budget, blockUsed, used, nonEmpty);
      if Enters(Len(e), f.blockUsed, f.used, cap, budget) {
        OneMoreWithin(f.placed, e, cap, budget, f.blockUsed, f.used, nonEmpty);
      }
    }
  }

  lemma {:induction false} FirstPassWithin(p: Plan, c: nat)
    requires c < |p.queues|
    ensures var f := First(p, c);
            f.used == FirstTotal(p, c, Chars) && f.blockUsed <= f.used &&
            WithinBudget(f.used, FirstTotal(p, c, NonEmpty), p.budget)
  {
    var used, nonEmpty := Before1(p, c), if c == 0 then 0 else FirstTotal(p, c - 1, NonEmpty);
    if c > 0 {
      FirstPassWithin(p, c - 1);
    }
    PlaceCounts(p.queues[c], p.caps[c], p.budget, 0, used);
    PlaceStaysWithin(p.queues[c], p.caps[c], p.budget, 0, used, nonEmpty);
    assert First(p, c) == Place(p.queues[c], p.caps[c], p.budget, 0, used);
  }

  lemma {:induction false} SecondPassWithin(p: Plan, c: nat)
    requires c < |p.queues|
    ensures var g, last := Second(p, c), |p.queues| - 1;
            g.used == FirstTotal(p, last, Chars) + SecondTotal(p, c, Chars) &&
            WithinBudget(g.used, FirstTotal(p, last, NonEmpty) + SecondTotal(p, c, NonEmpty), p.budget)
  {
    var last := |p.queues| - 1;
    var f, used := First(p, c), Before2(p, c);
    var nonEmpty := FirstTotal(p, last, NonEmpty) + if c == 0 then 0 else SecondTotal(p, c - 1, NonEmpty);
    if c == 0 {
      FirstPassWithin(p, last);
    } else {
      SecondPassWithin(p, c - 1);
    }
    PlaceCounts(f.left, p.budget, p.budget, f.blockUsed, used);
    PlaceStaysWithin(f.left, p.budget, p.budget, f.blockUsed, used, nonEmpty);
    assert Second(p, c) == Place(f.left, p.budget, p.budget, f.blockUsed, used);
  }

  /** `used` is the total kept, and exceeds the budget only for one oversize entry that is alone. */
  lemma UsedIsKeptAndBounded(p: Plan)
    ensures Used(p) == KeptTotal(p, |p.queues| - 1, Chars)
    ensures Used(p) <= Max(p.budget, 0) || KeptTotal(p, |p.queues| - 1, NonEmpty) == 1
  {
    SecondPassWithin(p, |p.queues| - 1);
    KeptIsBothPasses(p, |p.queues| - 1, Chars);
    KeptIsBothPasses(p, |p.queues| - 1, NonEmpty);
  }

  /** The running total never falls from one block to the next, nor from the first pass to the second. */
  lemma {:induction false} UsedGrows(p: Plan, b: nat)
    requires b < |p.queues|
    ensures First(p, b).used <= First(p, |p.queues| - 1).used <= Second(p, b).used
    ensures Second(p, b).used <= Used(p)
  {
    FirstGrows(p, b, |p.queues| - 1);
    SecondGrows(p, 0, b);
    SecondGrows(p, b, |p.queues| - 1);
    PlaceCounts(First(p, 0).left, p.budget, p.budget, First(p, 0).blockUsed, First(p, |p.queues| - 1).used);
  }

  lemma {:induction false} FirstGrows(p: Plan, b: nat, c: nat)
    requires b <= c < |p.queues|
    ensures First(p, b).used <= First(p, c).used
  {
    if b < c {
      FirstGrows(p, b, c - 1);
      PlaceCounts(p.queues[c], p.caps[c], p.budget, 0, First(p, c - 1).used);
    }
  }

  lemma {:induction false} SecondGrows(p: Plan, b: nat, c: nat)
    requires b <= c < |p.queues|
    ensures Second(p, b).used <= Second(p, c).used
  {
    if b < c {
      SecondGrows(p, b, c - 1);
      PlaceCounts(First(p, c).left, p.budget, p.budget, First(p, c).blockUsed, Before2(p, c));
      assert Second(p, c - 1).used == Before2(p, c);
    }
  }

  /** Maximality: no dropped entry would fit into what remains of the budget at the end. */
  lemma DroppedDoesNotFit(p: Plan, b: nat, e: Entry)
    requires b < |p.queues| && e in Dropped(p, b)
    ensures Used(p) + Len(e) > p.budget
  {
    var f := First(p, b);
    var used := Before2(p, b);
    LeftDoesNotFit(f.left, p.budget, p.budget, f.blockUsed, used);
    FirstPassWithin(p, b);
    UsedGrows(p, b);
    PlaceCounts(f.left, p.budget, p.budget, f.blockUsed, used);
    if b > 0 {
      UsedGrows(p, b - 1);
    }
  }

  /** Entry `k` of a block's queue is kept, in the first pass or in the second. */
  predicate IsKept(p: Plan, b: nat, k: nat)
    requires b < |p.queues| && k < |p.queues[b]|
  {
    var used1 := Before1(p, b);
    var used2 := Before2(p, b);
    var f := First(p, b);
    var left := |Place(p.queues[b][..k], p.caps[b], p.budget, 0, used1).left|;
    EntersAt(p.queues[b], k, p.caps[b], p.budget, 0, used1) ||
    (left < |f.left| && EntersAt(f.left, left, p.budget, p.budget, f.blockUsed, used2))
  }

  /** Dominance: keeping an entry means keeping every earlier one of its block that is not longer. */
  lemma KeptDominates(p: Plan, b: nat, i: nat, j: nat)
    requires b < |p.queues| && i < j < |p.queues[b]|
    requires Len(p.queues[b][i]) <= Len(p.queues[b][j]) && IsKept(p, b, j)
    ensures IsKept(p, b, i)
  {
    var q, cap := p.queues[b], p.caps[b];
    var used1 := Before1(p, b);
    var used2 := Before2(p, b);
    var f := First(p, b);
    if EntersAt(q, j, cap, p.budget, 0, used1) {
      PassDominance(q, i, j, cap, p.budget, 0, used1);
    } else if !EntersAt(q, i, cap, p.budget, 0, used1) {
      LeftAt(q, i, cap, p.budget, 0, used1);
      LeftAt(q, j, cap, p.budget, 0, used1);
      PassDominance(f.left, |Place(q[..i], cap, p.budget, 0, used1).left|,
        |Place(q[..j], cap, p.budget, 0, used1).left|,
                    p.budget, p.budget, f.blockUsed, used2);
    }
  }

  /** The entries whose flag is `want`, in order. */
  function Pick(q: seq<Entry>, flags: seq<bool>, want: bool): seq<Entry>
    requires |q| == |flags|
  {
    if q == [] then []
    else
      var n := |q| - 1;
      var init := Pick(q[..n], flags[..n], want);
      if flags[n] == want then init + [q[n]] else init
  }

  /** Which entries of a queue enter during one pass. */
  function Entering(q: seq<Entry>, cap: int, budget: int, blockUsed: nat, used: nat): seq<bool> {
    seq(|q|, k requires 0 <= k < |q| => EntersAt(q, k, cap, budget, blockUsed, used))
  }

  lemma EnteringPrefix(q: seq<Entry>, n: nat, cap: int, budget: int, blockUsed: nat, used: nat)
    requires n <= |q|
    ensures Entering(q[..n], cap, budget, blockUsed, used) == Entering(q, cap, budget, blockUsed, used)[..n]
  {
    assert forall k :: 0 <= k < n ==> q[..n][..k] == q[..k];
  }

  /** One pass places the entries that enter and leaves the others, both in order. */
  lemma {:induction false} PassPicks(q: seq<Entry>, cap: int, budget: int, blockUsed: nat, used: nat)
    ensures var f, flags := Place(q, cap, budget, blockUsed, used), Entering(q, cap, budget, blockUsed, used);
            f.placed == Pick(q, flags, true) && f.left == Pick(q, flags, false)
  {
    if q != [] {
      PassPicks(q[..|q| - 1], cap, budget, blockUsed, used);
      EnteringPrefix(q, |q| - 1, cap, budget, blockUsed, used);
    }
  }

  /** Where entry `k` stands among those with flag `false`. */
  function Rank(q: seq<Entry>, flags: seq<bool>, k: nat): nat
    requires |q| == |flags| && k <= |q|
  {
    |Pick(q[..k], flags[..k], false)|
  }

  lemma {:induction false} RankGrows(q: seq<Entry>, flags: seq<bool>, k: nat)
    requires |q| == |flags| && k <= |q|
    ensures Rank(q, flags, k) <= |Pick(q, flags, false)|
    ensures k < |q| && !flags[k] ==> Rank(q, flags, k) < |Pick(q, flags, false)|
  {
    if k == |q| {
      assert q[..k] == q && flags[..k] == flags;
    } else {
      var n := |q| - 1;
      assert q[..n][..k] == q[..k] && flags[..n][..k] == flags[..k];
      RankGrows(q[..n], flags[..n], k);
    }
  }

  /** An entry is out for good when it has flag `false` and its place among those has flag `false` again. */
  function Joined(q: seq<Entry>, first: seq<bool>, second: seq<bool>): seq<bool>
    requires |q| == |first| && |second| == |Pick(q, first, false)|
  {
    seq(|q|, k requires 0 <= k < |q| => first[k] || (Rank(q, first, k) < |second| && second[Rank(q, first, k)]))
  }

  lemma JoinedPrefix(q: seq<Entry>, first: seq<bool>, second: seq<bool>)
    requires q != [] && |q| == |first| && |second| == |Pick(q, first, false)|
    ensures var n := |q| - 1;
            var m := |Pick(q[..n], first[..n], false)|;
            m <= |second| && Joined(q, first, second)[..n] == Joined(q[..n], first[..n], second[..m])
  {
    var n := |q| - 1;
    var m := |Pick(q[..n], first[..n], false)|;
    forall k | 0 <= k < n ensures Joined(q, first, second)[k] == Joined(q[..n], first[..n], second[..m])[k] {
      assert q[..n][..k] == q[..k] && first[..n][..k] == first[..k];
      RankGrows(q[..n], first[..n], k);
    }
  }

  /** Picking twice is picking once. */
  lemma {:induction false} PickTwice(q: seq<Entry>, first: seq<bool>, second: seq<bool>)
    requires |q| == |first| && |second| == |Pick(q, first, false)|
    ensures Pick(Pick(q, first, false), second, false) == Pick(q, Joined(q, first, second), false)
    ensures multiset(Pick(q, first, true)) + multiset(Pick(Pick(q, first, false), second, true)) ==
            multiset(Pick(q, Joined(q, first, second), true))
  {
    if q != [] {
      var n := |q| - 1;
      var m := |Pick(q[..n], first[..n], false)|;
      JoinedPrefix(q, first, second);
      PickTwice(q[..n], first[..n], second[..m]);
      if !first[n] {
        var left := Pick(q, first, false);
        assert left[..m] == Pick(q[..n], first[..n], false) && left[m] == q[n];
      } else {
        assert second[..m] == second;
      }
    }
  }

  /** Which positions of a block's queue are kept. */
  function KeptFlags(p: Plan, b: nat): seq<bool>
    requires b < |p.queues|
  {
    seq(|p.queues[b]|, k requires 0 <= k < |p.queues[b]| => IsKept(p, b, k))
  }

  function FirstFlags(p: Plan, b: nat): seq<bool>
    requires b < |p.queues|
  {
    Entering(p.queues[b], p.caps[b], p.budget, 0, Before1(p, b))
  }

  function SecondFlags(p: Plan, b: nat): seq<bool>
    requires b < |p.queues|
  {
    Entering(First(p, b).left, p.budget, p.budget, First(p, b).blockUsed, Before2(p, b))
  }

  lemma FirstPicks(p: Plan, b: nat)
    requires b < |p.queues|
    ensures First(p, b).placed == Pick(p.queues[b], FirstFlags(p, b), true)
    ensures First(p, b).left == Pick(p.queues[b], FirstFlags(p, b), false)
  {
    PassPicks(p.queues[b], p.caps[b], p.budget, 0, Before1(p, b));
  }

  lemma SecondPicks(p: Plan, b: nat)
    requires b < |p.queues|
    ensures Second(p, b).placed == Pick(First(p, b).left, SecondFlags(p, b), true)
    ensures Second(p, b).left == Pick(First(p, b).left, SecondFlags(p, b), false)
  {
    PassPicks(First(p, b).left, p.budget, p.budget, First(p, b).blockUsed, Before2(p, b));
  }

  lemma RankIsLeft(p: Plan, b: nat, k: nat)
    requires b < |p.queues| && k < |p.queues[b]|
    ensures Rank(p.queues[b], FirstFlags(p, b), k) ==
            |Place(p.queues[b][..k], p.caps[b], p.budget, 0, Before1(p, b)).left|
  {
    PassPicks(p.queues[b][..k], p.caps[b], p.budget, 0, Before1(p, b));
    EnteringPrefix(p.queues[b], k, p.caps[b], p.budget, 0, Before1(p, b));
  }

  lemma FlagsAgree(p: Plan, b: nat)
    requires b < |p.queues| && |SecondFlags(p, b)| == |Pick(p.queues[b], FirstFlags(p, b), false)|
    ensures Joined(p.queues[b], FirstFlags(p, b), SecondFlags(p, b)) == KeptFlags(p, b)
  {
    forall k | 0 <= k < |p.queues[b]|
      ensures Joined(p.queues[b], FirstFlags(p, b), SecondFlags(p, b))[k] == KeptFlags(p, b)[k]
    {
      RankIsLeft(p, b, k);
    }
  }

  /** What is dropped are the entries at the positions not kept, in order; what is kept are the others. */
  lemma KeptAndDroppedByPosition(p: Plan, b: nat)
    requires b < |p.queues|
    ensures Dropped(p, b) == Pick(p.queues[b], KeptFlags(p, b), false)
    ensures multiset(Kept(p, b)) == multiset(Pick(p.queues[b], KeptFlags(p, b), true))
  {
    FirstPicks(p, b);
    SecondPicks(p, b);
    FlagsAgree(p, b);
    PickTwice(p.queues[b], FirstFlags(p, b), SecondFlags(p, b));
  }

  /**
   * Dominance of the output: the dropped entries of a block are those at some positions of its queue,
   * in order, the kept ones are the rest, and no position is dropped while a later one with an entry
   * at least as long is kept.
   */
  lemma OutputIsDominant(p: Plan, b: nat) returns (kept: seq<bool>)
    requires b < |p.queues|
    ensures |kept| == |p.queues[b]|
    ensures Dropped(p, b) == Pick(p.queues[b], kept, false) &&
            multiset(Kept(p, b)) == multiset(Pick(p.queues[b], kept, true))
    ensures forall i, j :: 0 <= i < j < |kept| && Len(p.queues[b][i]) <= Len(p.queues[b][j]) && kept[j] ==> kept[i]
  {
    kept := KeptFlags(p, b);
    KeptAndDroppedByPosition(p, b);
    forall i, j | 0 <= i < j < |kept| && Len(p.queues[b][i]) <= Len(p.queues[b][j]) && kept[j] ensures kept[i] {
      KeptDominates(p, b, i, j);
    }
  }

  /* ---------- guaranteed shares ---------- */

  /** The shares of the blocks from `b` on. */
  function CapsFrom(p: Plan, b: nat): int
    requires b <= |p.queues|
    decreases |p.queues| - b
  {
    if b == |p.queues| then 0 else p.caps[b] + CapsFrom(p, b + 1)
  }

  /** The shares are not negative and together fit the budget. */
  ghost predicate Fair(p: Plan) {
    (forall c :: 0 <= c < |p.caps| ==> p.caps[c] >= 0) && CapsFrom(p, 0) <= p.budget
  }

  lemma {:induction false} CapsFromFits(p: Plan, b: nat)
    requires Fair(p) && b <= |p.queues|
    ensures 0 <= CapsFrom(p, b) <= p.budget
    decreases b
  {
    if b > 0 {
      CapsFromFits(p, b - 1);
    }
    CapsFromNonNegative(p, b);
  }

  lemma {:induction false} CapsFromNonNegative(p: Plan, b: nat)
    requires Fair(p) && b <= |p.queues|
    ensures CapsFrom(p, b) >= 0
    decreases |p.queues| - b
  {
    if b < |p.queues| {
      CapsFromNonNegative(p, b + 1);
    }
  }

  /** `e` is the first non-empty entry of all, and it stands in block `b`. */
  ghost predicate Leads(queues: seq<seq<Entry>>, b: nat, e: Entry) {
    && b < |queues| && Len(e) > 0
    && (forall c :: 0 <= c < b ==> Sum(queues[c]) == 0)
    && exists k :: 0 <= k < |queues[b]| && LeadsQueue(queues[b], k, e)
  }

  ghost predicate LeadsQueue(queue: seq<Entry>, k: nat, e: Entry)
    requires k < |queue|
  {
    queue[k] == e && Sum(queue[..k]) == 0
  }

  /** No block that fits its own share loses anything. */
  ghost predicate SharesHonoured(p: Plan) {
    forall b :: 0 <= b < |p.queues| && Sum(p.queues[b]) <= p.caps[b] ==> Dropped(p, b) == []
  }

  /** After the leader's block, the first pass has used at most the leader or its share. */
  lemma LeaderBlockUse(p: Plan, b: nat, e: Entry)
    requires Leads(p.queues, b, e)
    ensures Len(e) <= First(p, b).used <= Max(Len(e), p.caps[b])
    ensures Before1(p, b) == 0
  {
    if b > 0 {
      NothingBefore(p, b - 1);
    }
    var k :| 0 <= k < |p.queues[b]| && LeadsQueue(p.queues[b], k, e);
    LeaderInQueue(p.queues[b], k, p.caps[b], p.budget);
  }

  lemma LeaderInQueue(q: seq<Entry>, k: nat, cap: int, budget: int)
    requires k < |q| && Len(q[k]) > 0 && Sum(q[..k]) == 0
    ensures Len(q[k]) <= Place(q, cap, budget, 0, 0).used <= Max(Len(q[k]), cap)
  {
    EmptyTextsEnter(q[..k], cap, budget);
    LeaderThenCapped(q, k, cap, budget);
  }

  lemma {:induction false} NothingBefore(p: Plan, b: nat)
    requires b < |p.queues| && forall c :: 0 <= c <= b ==> Sum(p.queues[c]) == 0
    ensures First(p, b).used == 0 && First(p, b).left == []
  {
    if b > 0 {
      NothingBefore(p, b - 1);
    }
    EmptyTextsEnter(p.queues[b], p.caps[b], p.budget);
  }

  lemma {:induction false} LeaderThenCapped(q: seq<Entry>, k: nat, cap: int, budget: int)
    requires k < |q| && Len(q[k]) > 0 &&
             Place(q[..k], cap, budget, 0, 0).used == Place(q[..k], cap, budget, 0, 0).blockUsed == 0
    ensures Len(q[k]) <= Place(q, cap, budget, 0, 0).used <= Max(Len(q[k]), cap)
    ensures Place(q, cap, budget, 0, 0).used == Place(q, cap, budget, 0, 0).blockUsed
    decreases |q|
  {
    if k == |q| - 1 {
      assert q[..|q| - 1] == q[..k];
    } else {
      assert q[..|q| - 1][..k] == q[..k];
      LeaderThenCapped(q[..|q| - 1], k, cap, budget);
    }
  }

  /** Once something is used, a block uses at most its share in the first pass. */
  lemma {:induction false} CappedByShare(q: seq<Entry>, cap: nat, budget: int, used: nat)
    requires used > 0
    ensures var f := Place(q, cap, budget, 0, used); f.blockUsed <= cap && f.used == used + f.blockUsed
  {
    if q != [] {
      CappedByShare(q[..|q| - 1], cap, budget, used);
    }
  }

  lemma {:induction false} LaterBlockUse(p: Plan, b: nat, e: Entry, c: nat)
    requires Fair(p) && Leads(p.queues, b, e) && b <= c < |p.queues|
    ensures 0 < First(p, c).used <= Max(Len(e), p.caps[b]) + CapsFrom(p, b + 1) - CapsFrom(p, c + 1)
  {
    if b == c {
      LeaderBlockUse(p, b, e);
    } else {
      LaterBlockUse(p, b, e, c - 1);
      CappedByShare(p.queues[c], p.caps[c], p.budget, First(p, c - 1).used);
    }
  }

  lemma NothingLeftNothingDropped(p: Plan, b: nat)
    requires b < |p.queues| && First(p, b).left == []
    ensures Dropped(p, b) == []
  {
  }

  /** What a block within its share finds used when its turn comes leaves room for all of it. */
  lemma RoomForBlock(p: Plan, b: nat, e: Entry, c: nat)
    requires Fair(p) && Leads(p.queues, b, e) && Len(e) + CapsFrom(p, b + 1) <= p.budget
    requires b <= c < |p.queues|
    ensures Before1(p, c) + p.caps[c] <= p.budget
  {
    CapsFromFits(p, b);
    CapsFromFits(p, c);
    CapsFromFits(p, c + 1);
    if b < c {
      LaterBlockUse(p, b, e, c - 1);
    } else {
      LeaderBlockUse(p, b, e);
    }
  }

  /** The shares are honoured when the leader leaves room for the shares that follow it. */
  lemma LeaderLeavesRoom(p: Plan, b: nat, e: Entry)
    requires Fair(p) && Leads(p.queues, b, e) && Len(e) + CapsFrom(p, b + 1) <= p.budget
    ensures SharesHonoured(p)
  {
    forall c | 0 <= c < |p.queues| && Sum(p.queues[c]) <= p.caps[c] ensures Dropped(p, c) == [] {
      if c < b {
        NothingBefore(p, c);
      } else {
        RoomForBlock(p, b, e, c);
        WholeQueueFits(p.queues[c], p.caps[c], p.budget, 0, Before1(p, c));
      }
      NothingLeftNothingDropped(p, c);
    }
  }

  lemma SumOfOne(e: Entry)
    ensures Sum([e]) == Len(e)
  {
    assert [e][..0] == [] && Total([e][..0], Chars) == 0;
  }

  lemma SingletonKept(p: Plan, c: nat)
    requires c < |p.queues| && |p.queues[c]| == 1 && Dropped(p, c) == []
    ensures Kept(p, c) == p.queues[c]
  {
    BlockConserves(p, c);
    var kept := Kept(p, c);
    assert kept[0] in multiset(kept);
    assert kept[0] in multiset(p.queues[c]);
  }

  /** Block `d` has one entry, which is kept: the leader, or one that fills the block's share. */
  ghost predicate KeptTight(p: Plan, b: nat, e: Entry, d: nat)
    requires d < |p.queues|
  {
    |p.queues[d]| == 1 && Dropped(p, d) == [] && Sum(p.queues[d]) == if d == b then Len(e) else p.caps[d]
  }

  /** Were nothing dropped from the leader on, the total would be the leader plus the later shares. */
  lemma {:induction false} TightTotal(p: Plan, b: nat, e: Entry, c: nat)
    requires b <= c < |p.queues| && Len(e) > 0
    requires forall d :: b <= d <= c ==> KeptTight(p, b, e, d)
    ensures KeptTotal(p, c, Chars) >= Len(e) + CapsFrom(p, b + 1) - CapsFrom(p, c + 1)
  {
    assert KeptTight(p, b, e, c);
    SingletonKept(p, c);
    if c > b {
      TightTotal(p, b, e, c - 1);
    }
  }

  /** Once something is used, a pass that places anything stays within the budget. */
  lemma {:induction false} SpendingIsCapped(queue: seq<Entry>, cap: int, budget: int, blockUsed: nat, used: nat)
    requires used > 0
    ensures var f := Place(queue, cap, budget, blockUsed, used);
            f.used >= used && if f.placed == [] then f.used == used else f.used <= budget
  {
    if queue != [] {
      SpendingIsCapped(queue[..|queue| - 1], cap, budget, blockUsed, used);
    }
  }

  /** From the leader on, either the total is within the budget or a block placed nothing. */
  lemma {:induction false} FirstPassSpending(p: Plan, b: nat, c: nat)
    requires b < c < |p.queues| && First(p, b).used > 0
    ensures First(p, c).used > 0
    ensures First(p, c).used <= p.budget || First(p, c).placed == []
  {
    if b < c - 1 {
      FirstPassSpending(p, b, c - 1);
    }
    SpendingIsCapped(p.queues[c], p.caps[c], p.budget, 0, Before1(p, c));
  }

  lemma {:induction false} SecondPassSpending(p: Plan, c: nat)
    requires c < |p.queues| && First(p, |p.queues| - 1).used > 0
    ensures Second(p, c).used > 0
    ensures First(p, |p.queues| - 1).used <= p.budget ==> Second(p, c).used <= p.budget
    ensures Second(p, c).used <= p.budget || Second(p, c).placed == []
  {
    if c > 0 {
      SecondPassSpending(p, c - 1);
    }
    SpendingIsCapped(First(p, c).left, p.budget, p.budget, First(p, c).blockUsed, Before2(p, c));
  }

  /** When something beyond the leader is kept in the last block, the total is within the budget. */
  lemma LastKeptMeansWithin(p: Plan, b: nat, e: Entry)
    requires Leads(p.queues, b, e) && b < |p.queues| - 1 && Kept(p, |p.queues| - 1) != []
    ensures Used(p) <= p.budget
  {
    var last := |p.queues| - 1;
    LeaderSpends(p, b, e, last);
    SpentMeansWithin(p, last);
  }

  lemma LeaderSpends(p: Plan, b: nat, e: Entry, last: nat)
    requires Leads(p.queues, b, e) && b < last < |p.queues|
    ensures First(p, last).used > 0 && (First(p, last).used <= p.budget || First(p, last).placed == [])
  {
    LeaderBlockUse(p, b, e);
    FirstPassSpending(p, b, last);
  }

  lemma SpentMeansWithin(p: Plan, last: nat)
    requires last == |p.queues| - 1 && First(p, last).used > 0 && Kept(p, last) != []
    requires First(p, last).used <= p.budget || First(p, last).placed == []
    ensures Second(p, last).used <= p.budget
  {
    SecondPassSpending(p, last);
    EitherPassSpends(First(p, last), Second(p, last), p.budget);
  }

  lemma EitherPassSpends(f: Fill, g: Fill, budget: int)
    requires f.placed + g.placed != [] && (f.used <= budget || f.placed == []) && (g.used <= budget || g.placed == [])
    requires f.used <= budget ==> g.used <= budget
    ensures g.used <= budget
  {
  }

  lemma LeaderIsKept(p: Plan, b: nat, e: Entry)
    requires Leads(p.queues, b, e) && p.queues[b] == [e]
    ensures Dropped(p, b) == []
  {
    LeaderBlockUse(p, b, e);
    assert [e][..0] == [] && Place([e][..0], p.caps[b], p.budget, 0, 0) == Fill([], [], 0, 0);
    NothingLeftNothingDropped(p, b);
  }

  /** Were every tight block kept, the total would be within the budget, which it is not. */
  lemma TightExceeds(p: Plan, b: nat, e: Entry)
    requires Leads(p.queues, b, e) && b < |p.queues| - 1 && Len(e) + CapsFrom(p, b + 1) > p.budget
    ensures exists d :: b <= d < |p.queues| && !KeptTight(p, b, e, d)
  {
    var last := |p.queues| - 1;
    if forall d :: b <= d <= last ==> KeptTight(p, b, e, d) {
      TightTotal(p, b, e, last);
      UsedIsKeptAndBounded(p);
      assert KeptTight(p, b, e, last);
      SingletonKept(p, last);
      LastKeptMeansWithin(p, b, e);
    }
  }

  /* ---------- the allocator ---------- */

  /** The plan for a list of entries and a budget in characters. */
  function PlanFor(entries: seq<Entry>, budget: int): Plan {
    Plan([Queue(entries, 0), Queue(entries, 1), Queue(entries, 2), Queue(entries, 3), Queue(entries, 4)],
         Shares(budget), budget)
  }

  function Shares(budget: int): seq<int> {
    [Share(0, budget), Share(1, budget), Share(2, budget), Share(3, budget), Share(4, budget)]
  }

  /** `share` is `percent` hundredths of the budget, rounded down. */
  predicate IsShare(share: int, percent: int, budget: int) {
    100 * share <= percent * budget < 100 * (share + 1)
  }

  /** The blocks' shares are 30, 20, 10, 10 and 30 hundredths, rounded down, so they never exceed the budget. */
  lemma SharesAreFair(entries: seq<Entry>, budget: nat)
    ensures Fair(PlanFor(entries, budget))
    ensures var caps := PlanFor(entries, budget).caps;
            && |caps| == 5 && IsShare(caps[0], 30, budget) && IsShare(caps[1], 20, budget)
            && IsShare(caps[2], 10, budget) && IsShare(caps[3], 10, budget) && IsShare(caps[4], 30, budget)
  {
    var p := PlanFor(entries, budget);
    assert CapsFrom(p, 5) == 0;
    assert CapsFrom(p, 4) == p.caps[4];
    assert CapsFrom(p, 3) == p.caps[3] + p.caps[4];
    assert CapsFrom(p, 2) == p.caps[2] + p.caps[3] + p.caps[4];
    assert CapsFrom(p, 1) == p.caps[1] + p.caps[2] + p.caps[3] + p.caps[4];
    assert CapsFrom(p, 0) == p.caps[0] + p.caps[1] + p.caps[2] + p.caps[3] + p.caps[4];
  }

  /* ---------- exactly when the shares of the allocator are guaranteed ---------- */

  /** The shares of the blocks after `b`. */
  function LaterShares(b: nat, budget: int): int {
    (if b < 1 then Share(1, budget) else 0) + (if b < 2 then Share(2, budget) else 0) +
    (if b < 3 then Share(3, budget) else 0) + (if b < 4 then Share(4, budget) else 0)
  }

  lemma LaterSharesAreCaps(entries: seq<Entry>, budget: nat, b: nat)
    requires b < BLOCKS
    ensures CapsFrom(PlanFor(entries, budget), b + 1) == LaterShares(b, budget)
  {
    var p := PlanFor(entries, budget);
    assert CapsFrom(p, 5) == 0;
    assert CapsFrom(p, 4) == p.caps[4];
    assert CapsFrom(p, 3) == p.caps[3] + p.caps[4];
    assert CapsFrom(p, 2) == p.caps[2] + p.caps[3] + p.caps[4];
    assert CapsFrom(p, 1) == p.caps[1] + p.caps[2] + p.caps[3] + p.caps[4];
  }

  /** The kind that a block is for. */
  function KindOf(b: nat): (kind: string)
    ensures b < BLOCKS ==> BlockOf(kind) == b
  {
    if b == 0 then "decision" else if b == 1 then "preference" else if b == 2 then "experience" else if b == 3
      then "reference" else "fact"
  }

  /** An entry of a block that fills its share exactly. */
  function Filler(b: nat, budget: nat): Entry {
    Entry(KindOf(b), seq(Share(b, budget), _ => 'x'), None)
  }

  /** One filler for each block from `c` on. */
  function Fillers(c: nat, budget: nat): seq<Entry>
    decreases BLOCKS - c
  {
    if c >= BLOCKS then [] else [Filler(c, budget)] + Fillers(c + 1, budget)
  }

  lemma {:induction false} InBlockOfAppend(a: seq<Entry>, b: seq<Entry>, c: nat)
    ensures InBlock(a + b, c) == InBlock(a, c) + InBlock(b, c)
  {
    if b == [] {
      assert a + b == a;
    } else {
      InBlockOfAppend(a, b[..|b| - 1], c);
      assert (a + b)[..|a + b| - 1] == a + b[..|b| - 1];
    }
  }

  lemma InBlockOfOne(e: Entry, c: nat)
    ensures InBlock([e], c) == if BlockOf(e.kind) == c then [e] else []
  {
    assert [e][..0] == [];
  }

  lemma {:induction false} FillersInBlock(c: nat, budget: nat, d: nat)
    requires c <= BLOCKS && d < BLOCKS
    ensures InBlock(Fillers(c, budget), d) == if c <= d then [Filler(d, budget)] else []
    decreases BLOCKS - c
  {
    if c < BLOCKS {
      FillersInBlock(c + 1, budget, d);
      InBlockOfAppend([Filler(c, budget)], Fillers(c + 1, budget), d);
      InBlockOfOne(Filler(c, budget), d);
    }
  }

  /** The leader, and behind it a filler for every later block. */
  function TightEntries(b: nat, e: Entry, budget: nat): seq<Entry> {
    [e] + Fillers(b + 1, budget)
  }

  lemma QueueOfAtMostOne(entries: seq<Entry>, b: nat)
    requires |InBlock(entries, b)| <= 1
    ensures Queue(entries, b) == InBlock(entries, b)
  {
    var es := InBlock(entries, b);
    if es != [] {
      assert es[..|es| - 1] == [] && es == [es[0]];
    }
  }

  lemma TightQueue(b: nat, e: Entry, budget: nat, c: nat)
    requires b < BLOCKS && c < BLOCKS && BlockOf(e.kind) == b
    ensures Queue(TightEntries(b, e, budget), c) == if c < b then [] else if c == b then [e] else [Filler(c, budget)]
  {
    InBlockOfAppend([e], Fillers(b + 1, budget), c);
    InBlockOfOne(e, c);
    FillersInBlock(b + 1, budget, c);
    QueueOfAtMostOne(TightEntries(b, e, budget), c);
  }

  lemma TightPlan(b: nat, e: Entry, budget: nat)
    requires b < BLOCKS && BlockOf(e.kind) == b && Len(e) > 0
    ensures var qs := PlanFor(TightEntries(b, e, budget), budget).queues;
            Leads(qs, b, e) && qs[b] == [e] &&
            forall c :: b < c < BLOCKS ==> |qs[c]| == 1 && Sum(qs[c]) == Share(c, budget)
  {
    var qs := PlanFor(TightEntries(b, e, budget), budget).queues;
    QueueAt(TightEntries(b, e, budget), budget);
    forall c | 0 <= c < BLOCKS ensures TightAt(qs[c], b, e, budget, c) {
      TightQueueSum(b, e, budget, c);
    }
    TightLeads(qs, b, e, budget);
  }

  lemma QueueAt(entries: seq<Entry>, budget: nat)
    ensures forall c :: 0 <= c < BLOCKS ==> PlanFor(entries, budget).queues[c] == Queue(entries, c)
  {
  }

  ghost predicate TightAt(q: seq<Entry>, b: nat, e: Entry, budget: nat, c: nat)
    requires c < BLOCKS
  {
    if c < b then Sum(q) == 0 else if c == b then q == [e] else |q| == 1 && Sum(q) == Share(c, budget)
  }

  lemma TightQueueSum(b: nat, e: Entry, budget: nat, c: nat)
    requires b < BLOCKS && c < BLOCKS && BlockOf(e.kind) == b
    ensures TightAt(Queue(TightEntries(b, e, budget), c), b, e, budget, c)
  {
    TightQueue(b, e, budget, c);
    TightSum(Queue(TightEntries(b, e, budget), c), b, e, budget, c);
  }

  lemma TightSum(q: seq<Entry>, b: nat, e: Entry, budget: nat, c: nat)
    requires c < BLOCKS && q == if c < b then [] else if c == b then [e] else [Filler(c, budget)]
    ensures TightAt(q, b, e, budget, c)
  {
    if c > b {
      FillerFills(c, budget);
    }
  }

  lemma FillerFills(c: nat, budget: nat)
    requires c < BLOCKS
    ensures Sum([Filler(c, budget)]) == Share(c, budget)
  {
    SumOfOne(Filler(c, budget));
    assert Len(Filler(c, budget)) == Share(c, budget);
  }

  lemma TightLeads(qs: seq<seq<Entry>>, b: nat, e: Entry, budget: nat)
    requires |qs| == BLOCKS && b < BLOCKS && Len(e) > 0 && forall c :: 0 <= c < BLOCKS ==>
             TightAt(qs[c], b, e, budget, c)
    ensures Leads(qs, b, e) && qs[b] == [e] && forall c :: b < c < BLOCKS ==>
            |qs[c]| == 1 && Sum(qs[c]) == Share(c, budget)
  {
    forall c | 0 <= c < BLOCKS ensures TightAt(qs[c], b, e, budget, c) {
    }
    assert TightAt(qs[b], b, e, budget, b);
    assert [e][..0] == [];
    assert LeadsQueue(qs[b], 0, e);
  }

  /** When the leader leaves too little room, some later block loses the one entry that fills its share. */
  lemma TightEntriesLose(b: nat, e: Entry, budget: nat)
    requires b < BLOCKS - 1 && BlockOf(e.kind) == b && Len(e) > 0 && Len(e) + LaterShares(b, budget) > budget
    ensures !SharesHonoured(PlanFor(TightEntries(b, e, budget), budget))
  {
    TightPlan(b, e, budget);
    LaterSharesAreCaps(TightEntries(b, e, budget), budget, b);
    TightPlanLoses(PlanFor(TightEntries(b, e, budget), budget), b, e);
  }

  lemma TightPlanLoses(p: Plan, b: nat, e: Entry)
    requires Leads(p.queues, b, e) && p.queues[b] == [e] && b < |p.queues| - 1 && Len(e) + CapsFrom(p, b + 1) > p.budget
    requires forall c :: b < c < |p.queues| ==> |p.queues[c]| == 1 && Sum(p.queues[c]) == p.caps[c]
    ensures !SharesHonoured(p)
  {
    LeaderIsKept(p, b, e);
    SumOfOne(e);
    TightExceeds(p, b, e);
    var d :| b <= d < |p.queues| && !KeptTight(p, b, e, d);
    assert d != b && Sum(p.queues[d]) == p.caps[d];
  }

  /** A leader of the last block takes nothing from anybody's share. */
  lemma LastBlockLeads(entries: seq<Entry>, budget: nat, e: Entry)
    requires Leads(PlanFor(entries, budget).queues, BLOCKS - 1, e)
    ensures SharesHonoured(PlanFor(entries, budget))
  {
    var p := PlanFor(entries, budget);
    forall c | 0 <= c < |p.queues| && Sum(p.queues[c]) <= p.caps[c] ensures Dropped(p, c) == [] {
      if c < BLOCKS - 1 {
        NothingBefore(p, c);
      } else {
        LeaderBlockUse(p, c, e);
        WholeQueueFits(p.queues[c], p.caps[c], p.budget, 0, 0);
      }
      NothingLeftNothingDropped(p, c);
    }
  }

  /**
   * Exactly when the allocator guarantees the shares: whatever list of entries has `e` as its first
   * non-empty one, no block within its share loses anything, if and only if `e` is of the last block or
   * leaves room for the shares of the blocks after its own.
   */
  lemma SharesGuaranteedIff(budget: nat, e: Entry)
    requires Len(e) > 0
    ensures (forall entries :: Leads(PlanFor(entries, budget).queues, BlockOf(e.kind), e) ==>
            SharesHonoured(PlanFor(entries, budget))) <==>
            BlockOf(e.kind) == BLOCKS - 1 || Len(e) + LaterShares(BlockOf(e.kind), budget) <= budget
  {
    var b := BlockOf(e.kind);
    if b == BLOCKS - 1 {
      forall entries | Leads(PlanFor(entries, budget).queues, b, e) ensures SharesHonoured(PlanFor(entries, budget)) {
        LastBlockLeads(entries, budget, e);
      }
    } else if Len(e) + LaterShares(b, budget) <= budget {
      forall entries | Leads(PlanFor(entries, budget).queues, b, e) ensures SharesHonoured(PlanFor(entries, budget)) {
        SharesAreFair(entries, budget);
        LaterSharesAreCaps(entries, budget, b);
        LeaderLeavesRoom(PlanFor(entries, budget), b, e);
      }
    } else {
      TightPlan(b, e, budget);
      TightEntriesLose(b, e, budget);
    }
  }

  /** In the allocator: a first non-empty entry that leaves room costs no block its share. */
  lemma GuaranteedShares(entries: seq<Entry>, budget: nat, b: nat, e: Entry, c: nat)
    requires b < BLOCKS && c < BLOCKS
    requires var p := PlanFor(entries, budget);
             Leads(p.queues, b, e) && Len(e) + CapsFrom(p, b + 1) <= budget &&
               Sum(Queue(entries, c)) <= Share(c, budget)
    ensures Dropped(PlanFor(entries, budget), c) == []
  {
    SharesAreFair(entries, budget);
    LeaderLeavesRoom(PlanFor(entries, budget), b, e);
  }

  datatype Section = Section(name: string, heading: string, items: seq<string>)

  function Texts(es: seq<Entry>): seq<string> {
    seq(|es|, i requires 0 <= i < |es| => es[i].text)
  }

  /** The sections of the first blocks that keep anything, in block order. */
  function Sections(kept: seq<seq<Entry>>): seq<Section>
    requires |kept| <= BLOCKS
  {
    if kept == [] then []
    else
      var b := |kept| - 1;
      var init := Sections(kept[..b]);
      if kept[b] == [] then init
      else init + [Section(MEMORY_BLOCKS[b].name, MEMORY_BLOCKS[b].heading, Texts(kept[b]))]
  }

  /** One pass over a queue: place what enters, keep the rest in order. */
  method PlaceInBlock(queue: seq<Entry>, cap: int, budget: int, blockUsed0: nat, used0: nat) returns (f: Fill)
    ensures f == Place(queue, cap, budget, blockUsed0, used0)
  {
    var placed: seq<Entry>, left: seq<Entry> := [], [];
    var blockUsed: nat, used: nat := blockUsed0, used0;
    for n := 0 to |queue|
      invariant Fill(placed, left, blockUsed, used) == Place(queue[..n], cap, budget, blockUsed0, used0)
    {
      var e := queue[n];
      assert queue[..n + 1][..n] == queue[..n];
      var inBlock := blockUsed + |e.text|;
      if inBlock > Min(cap, budget) || used + |e.text| > budget {
        if blockUsed > 0 || used > 0 {
          left := left + [e];
          continue;
        }
      }
      placed := placed + [e];
      blockUsed := blockUsed + |e.text|;
      used := used + |e.text|;
    }
    assert queue[..|queue|] == queue;
    f := Fill(placed, left, blockUsed, used);
  }

  function ListOf(byBlock: map<string, seq<Entry>>, b: nat): seq<Entry>
    requires b < BLOCKS
  {
    var name := MEMORY_BLOCKS[b].name;
    if name in byBlock then byBlock[name] else []
  }

  /** Sorts the entries into the queues of their blocks. */
  method QueueByBlock(entries: seq<Entry>, budget: int) returns (queues: seq<seq<Entry>>)
    ensures queues == PlanFor(entries, budget).queues
  {
    var byBlock: map<string, seq<Entry>> := map[];
    for n := 0 to |entries|
      invariant forall b :: 0 <= b < BLOCKS ==> ListOf(byBlock, b) == InBlock(entries[..n], b)
    {
      assert entries[..n + 1][..n] == entries[..n];
      var name := MEMORY_BLOCKS[BlockOf(entries[n].kind)].name;
      var list := if name in byBlock then byBlock[name] else [];
      byBlock := byBlock[name := list + [entries[n]]];
    }
    assert entries[..|entries|] == entries;
    queues := [Ranked(ListOf(byBlock, 0)), Ranked(ListOf(byBlock, 1)), Ranked(ListOf(byBlock, 2)),
               Ranked(ListOf(byBlock, 3)), Ranked(ListOf(byBlock, 4))];
  }

  /** The number of dropped entries in the blocks up to `c`. */
  function DroppedCount(p: Plan, c: nat): nat
    requires c < |p.queues|
  {
    (if c == 0 then 0 else DroppedCount(p, c - 1)) + |Dropped(p, c)|
  }

  function KeptLists(p: Plan): seq<seq<Entry>> {
    seq(|p.queues|, b requires 0 <= b < |p.queues| => Kept(p, b))
  }

  function FirstFills(p: Plan): seq<Fill> {
    seq(|p.queues|, b requires 0 <= b < |p.queues| => First(p, b))
  }

  /** Guaranteed shares, block by block. */
  method FirstPass(p: Plan) returns (first: seq<Fill>, used: nat)
    ensures first == FirstFills(p)
    ensures used == First(p, |p.queues| - 1).used
  {
    first, used := [], 0;
    for b := 0 to |p.queues|
      invariant first == FirstFills(p)[..b]
      invariant used == if b == 0 then 0 else First(p, b - 1).used
    {
      var f := PlaceInBlock(p.queues[b], p.caps[b], p.budget, 0, used);
      first := first + [f];
      used := f.used;
    }
  }

  /** Lent slack, block by block. */
  method SecondPass(p: Plan, first: seq<Fill>, used0: nat) returns (kept: seq<seq<Entry>>, dropped: nat, used: nat)
    requires first == FirstFills(p)
    requires used0 == First(p, |p.queues| - 1).used
    ensures kept == KeptLists(p) && dropped == DroppedCount(p, |p.queues| - 1) && used == Used(p)
  {
    kept, dropped, used := [], 0, used0;
    for b := 0 to |p.queues|
      invariant kept == KeptLists(p)[..b]
      invariant used == if b == 0 then used0 else Second(p, b - 1).used
      invariant dropped == if b == 0 then 0 else DroppedCount(p, b - 1)
    {
      var f := PlaceInBlock(first[b].left, p.budget, p.budget, first[b].blockUsed, used);
      assert first[b] == First(p, b) && f == Second(p, b);
      kept := kept + [first[b].placed + f.placed];
      used := f.used;
      dropped := dropped + |f.left|;
    }
  }

  /** Only blocks that keep something get a section. */
  method Render(kept: seq<seq<Entry>>) returns (sections: seq<Section>)
    requires |kept| == BLOCKS
    ensures sections == Sections(kept)
  {
    sections := [];
    for b := 0 to |kept|
      invariant sections == Sections(kept[..b])
    {
      assert kept[..b + 1][..b] == kept[..b];
      if |kept[b]| > 0 {
        sections := sections + [Section(MEMORY_BLOCKS[b].name, MEMORY_BLOCKS[b].heading, Texts(kept[b]))];
      }
    }
    assert kept[..|kept|] == kept;
  }

  method ApplyMemoryBlockBudget(entries: seq<Entry>, budget: int)
    returns (sections: seq<Section>, dropped: nat, used: nat)
    ensures var p := PlanFor(entries, budget);
            sections == Sections(KeptLists(p)) && dropped == DroppedCount(p, |p.queues| - 1) && used == Used(p)
  {
    var queues := QueueByBlock(entries, budget);
    var p: Plan := Plan(queues, Shares(budget), budget);
    var first, used1 := FirstPass(p);
    var kept;
    kept, dropped, used := SecondPass(p, first, used1);
    sections := Render(kept);
  }

  /** Every input entry is kept or dropped, as often as it occurs, in its own block. */
  lemma EntriesConserved(entries: seq<Entry>, budget: int, e: Entry)
    ensures var p, b := PlanFor(entries, budget), BlockOf(e.kind);
            multiset(entries)[e] == multiset(Kept(p, b))[e] + multiset(Dropped(p, b))[e]
  {
    var p, b := PlanFor(entries, budget), BlockOf(e.kind);
    BlocksPartition(entries, b);
    RankedIsStableSort(InBlock(entries, b));
    assert p.queues[b] == Queue(entries, b);
    BlockConserves(p, b);
  }

  lemma {:induction false} CountsAddUp(p: Plan, c: nat)
    requires c < |p.queues|
    ensures KeptCount(p, c) + DroppedCount(p, c) == QueuedCount(p.queues[..c + 1])
  {
    assert p.queues[..c + 1][..c] == p.queues[..c];
    if c > 0 {
      CountsAddUp(p, c - 1);
    }
    BlockConserves(p, c);
  }

  function KeptCount(p: Plan, c: nat): nat
    requires c < |p.queues|
  {
    (if c == 0 then 0 else KeptCount(p, c - 1)) + |Kept(p, c)|
  }

  function QueuedCount(queues: seq<seq<Entry>>): nat {
    if queues == [] then 0 else QueuedCount(queues[..|queues| - 1]) + |queues[|queues| - 1]|
  }

  lemma QueuedCountOfFive(a: seq<Entry>, b: seq<Entry>, c: seq<Entry>, d: seq<Entry>, e: seq<Entry>)
    ensures QueuedCount([a, b, c, d, e]) == |a| + |b| + |c| + |d| + |e|
  {
    OneMoreQueue([a, b, c, d], e);
    OneMoreQueue([a, b, c], d);
    OneMoreQueue([a, b], c);
    OneMoreQueue([a], b);
    OneMoreQueue([], a);
    assert [] + [a] == [a] && [a] + [b] == [a, b] && [a, b] + [c] == [a, b, c];
    assert [a, b, c] + [d] == [a, b, c, d] && [a, b, c, d] + [e] == [a, b, c, d, e];
  }

  lemma OneMoreQueue(queues: seq<seq<Entry>>, q: seq<Entry>)
    ensures QueuedCount(queues + [q]) == QueuedCount(queues) + |q|
  {
    assert (queues + [q])[..|queues|] == queues;
  }

  /** Placed and dropped entries add up to the input. */
  lemma CountConserved(entries: seq<Entry>, budget: int)
    ensures var p := PlanFor(entries, budget);
            KeptCount(p, BLOCKS - 1) + DroppedCount(p, BLOCKS - 1) == |entries|
  {
    var p := PlanFor(entries, budget);
    CountsAddUp(p, BLOCKS - 1);
    assert p.queues[..BLOCKS - 1 + 1] == p.queues;
    assert KeptCount(p, BLOCKS - 1) + DroppedCount(p, BLOCKS - 1) == QueuedCount(p.queues);
    BlockSizes(entries);
    QueuedCountOfFive(Queue(entries, 0), Queue(entries, 1), Queue(entries, 2), Queue(entries, 3), Queue(entries, 4));
    PinsSplit(InBlock(entries, 0));
    PinsSplit(InBlock(entries, 1));
    PinsSplit(InBlock(entries, 2));
    PinsSplit(InBlock(entries, 3));
    PinsSplit(InBlock(entries, 4));
    assert QueuedCount(p.queues) == |entries|;
  }
}
