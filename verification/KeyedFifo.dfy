/**
 * The bounded, keyed FIFO behind both the delivery deduper and the retained queue:
 * an element enters when no present element has its key, and the oldest leave while
 * more than `cap` are present.
 */
module KeyedFifo {
  import opened Common

  function Keys<T, K(==)>(items: seq<T>, key: T -> K): seq<K> {
    seq(|items|, i requires 0 <= i < |items| => key(items[i]))
  }

  predicate HoldsKey<T, K(==)>(items: seq<T>, k: K, key: T -> K) {
    k in Keys(items, key)
  }

  /** One arrival. */
  function Admit<T, K(==)>(items: seq<T>, x: T, cap: nat, key: T -> K): seq<T> {
    if HoldsKey(items, key(x), key) then items else LastN(items + [x], cap)
  }

  /** What is present after the arrivals `xs`, oldest arrival first. */
  function Run<T, K(==)>(start: seq<T>, xs: seq<T>, cap: nat, key: T -> K): seq<T> {
    if xs == [] then start
    else Admit(Run(start, xs[..|xs| - 1], cap, key), xs[|xs| - 1], cap, key)
  }

  /** Arrival `k` enters rather than being turned away as a duplicate. */
  predicate Enters<T, K(==)>(start: seq<T>, xs: seq<T>, k: nat, cap: nat, key: T -> K)
    requires k < |xs|
  {
    !HoldsKey(Run(start, xs[..k], cap, key), key(xs[k]), key)
  }

  /** The arrivals that entered, in order. */
  function Entered<T, K(==)>(start: seq<T>, xs: seq<T>, cap: nat, key: T -> K): seq<T> {
    if xs == [] then []
    else
      var n := |xs| - 1;
      var before := Entered(start, xs[..n], cap, key);
      if Enters(start, xs, n, cap, key) then before + [xs[n]] else before
  }

  ghost predicate WellFormed<T, K>(items: seq<T>, cap: nat, key: T -> K) {
    |items| <= cap && Distinct(Keys(items, key))
  }

  lemma AdmitWellFormed<T, K>(items: seq<T>, x: T, cap: nat, key: T -> K)
    requires WellFormed(items, cap, key)
    ensures WellFormed(Admit(items, x, cap, key), cap, key)
  {
    if !HoldsKey(items, key(x), key) {
      var all := items + [x];
      assert forall i :: 0 <= i < |items| ==> Keys(items, key)[i] == key(items[i]);
      forall i, j | 0 <= i < j < |all|
        ensures key(all[i]) != key(all[j])
      {
        assert key(items[i]) == Keys(items, key)[i];
        if j < |items| {
          assert key(items[j]) == Keys(items, key)[j];
        }
      }
    }
  }

  lemma {:induction false} RunWellFormed<T, K>(start: seq<T>, xs: seq<T>, cap: nat, key: T -> K)
    requires WellFormed(start, cap, key)
    ensures WellFormed(Run(start, xs, cap, key), cap, key)
  {
    if xs != [] {
      RunWellFormed(start, xs[..|xs| - 1], cap, key);
      AdmitWellFormed(Run(start, xs[..|xs| - 1], cap, key), xs[|xs| - 1], cap, key);
    }
  }

  /** The content is exactly the newest `cap` of everything that ever entered. */
  lemma {:induction false} RunIsNewestEntered<T, K>(start: seq<T>, xs: seq<T>, cap: nat, key: T -> K)
    requires |start| <= cap
    ensures Run(start, xs, cap, key) == LastN(start + Entered(start, xs, cap, key), cap)
  {
    if xs == [] {
      assert start + [] == start;
    } else {
      var n := |xs| - 1;
      var before := Entered(start, xs[..n], cap, key);
      RunIsNewestEntered(start, xs[..n], cap, key);
      if Enters(start, xs, n, cap, key) {
        LastNOfAppend(start + before, [xs[n]], cap);
        assert start + before + [xs[n]] == start + Entered(start, xs, cap, key);
      }
    }
  }

  lemma {:induction false} RunAppend<T, K>(start: seq<T>, xs: seq<T>, ys: seq<T>, cap: nat, key: T -> K)
    ensures Run(start, xs + ys, cap, key) == Run(Run(start, xs, cap, key), ys, cap, key)
  {
    if ys == [] {
      assert xs + ys == xs;
    } else {
      var n := |ys| - 1;
      assert (xs + ys)[..|xs + ys| - 1] == xs + ys[..n];
      RunAppend(start, xs, ys[..n], cap, key);
    }
  }

  /** Keys of the arrivals that entered strictly between positions `i` and `j`. */
  ghost function KeysBetween<T(!new), K(!new)>(start: seq<T>, xs: seq<T>, i: nat, j: nat, cap: nat, key: T -> K): set<K>
    requires i < j <= |xs|
  {
    set k | i < k < j && Enters(start, xs, k, cap, key) :: key(xs[k])
  }

  ghost predicate FromWindow<T(!new), K(!new)>(w: seq<T>, from: nat, xs: seq<T>, start: seq<T>, i: nat, j: nat,
                                               cap: nat, key: T -> K)
    requires i < j <= |xs|
  {
    forall q :: from <= q < |w| ==> key(w[q]) in KeysBetween(start, xs, i, j, cap, key)
  }

  /**
   * Either arrival `i` is still present, and everything behind it entered after it;
   * or `cap` elements that entered after it fill the whole window.
   */
  lemma {:induction false} StillPresentOrPushedOut<T(!new), K(!new)>(
          start: seq<T>, xs: seq<T>, i: nat, j: nat, cap: nat, key: T -> K)
    returns (p: int)
    requires WellFormed(start, cap, key)
    requires i < j <= |xs| && Enters(start, xs, i, cap, key)
    ensures var w := Run(start, xs[..j], cap, key);
            if 0 <= p
            then p < |w| && w[p] == xs[i] && HoldsKey(w, key(xs[i]), key) &&
              FromWindow(w, p + 1, xs, start, i, j, cap, key)
            else |w| == cap && FromWindow(w, 0, xs, start, i, j, cap, key)
  {
    var n := j - 1;
    assert xs[..j][..n] == xs[..n];
    var v := Run(start, xs[..n], cap, key);
    var w := Run(start, xs[..j], cap, key);
    RunWellFormed(start, xs[..n], cap, key);
    if n == i {
      p := if cap == 0 then -1 else |w| - 1;
    } else {
      var p0 := StillPresentOrPushedOut(start, xs, i, n, cap, key);
      assert KeysBetween(start, xs, i, n, cap, key) <= KeysBetween(start, xs, i, j, cap, key);
      if !Enters(start, xs, n, cap, key) {
        p := p0;
      } else {
        assert key(xs[n]) in KeysBetween(start, xs, i, j, cap, key);
        p := if |v| < cap then p0 else if p0 <= 0 then -1 else p0 - 1;
        assert cap > 0 ==> w == v + [xs[n]] || w == v[1..] + [xs[n]];
      }
    }
    if 0 <= p {
      assert Keys(w, key)[p] == key(xs[i]);
    }
  }

  /**
   * Window law: between two entries of the same key, at least `cap` other distinct keys entered.
   * Equivalently, a repeated key is turned away until `cap` others have come in between.
   */
  lemma ReentryNeedsCapOthers<T(!new), K(!new)>(start: seq<T>, xs: seq<T>, i: nat, j: nat, cap: nat, key: T -> K)
    requires WellFormed(start, cap, key)
    requires i < j < |xs| && key(xs[i]) == key(xs[j])
    requires Enters(start, xs, i, cap, key) && Enters(start, xs, j, cap, key)
    ensures |KeysBetween(start, xs, i, j, cap, key) - {key(xs[i])}| >= cap
  {
    var w := Run(start, xs[..j], cap, key);
    var p := StillPresentOrPushedOut(start, xs, i, j, cap, key);
    RunWellFormed(start, xs[..j], cap, key);
    var ks := Keys(w, key);
    assert p < 0;
    DistinctCardinality(ks);
    var others := KeysBetween(start, xs, i, j, cap, key) - {key(xs[i])};
    forall k | k in ToSet(ks) ensures k in others {
      var q :| 0 <= q < |ks| && ks[q] == k;
      assert key(w[q]) == k;
    }
    SubsetCardinality(ToSet(ks), others);
  }

  lemma {:induction false} SubsetCardinality<K>(a: set<K>, b: set<K>)
    requires a <= b
    ensures |a| <= |b|
  {
    if a != {} {
      var x :| x in a;
      SubsetCardinality(a - {x}, b - {x});
    }
  }

  /** Replaying a well-formed content into an empty FIFO of the same size rebuilds it. */
  lemma {:induction false} ReplayRebuilds<T, K>(items: seq<T>, cap: nat, key: T -> K)
    requires WellFormed(items, cap, key)
    ensures Run([], items, cap, key) == items
  {
    if items != [] {
      var n := |items| - 1;
      forall i, j | 0 <= i < j < n ensures Keys(items[..n], key)[i] != Keys(items[..n], key)[j] {
        assert Keys(items, key)[i] == key(items[i]) && Keys(items, key)[j] == key(items[j]);
      }
      ReplayRebuilds(items[..n], cap, key);
      forall i | 0 <= i < n ensures key(items[i]) != key(items[n]) {
        assert Keys(items, key)[i] != Keys(items, key)[n];
      }
      assert items[..n] + [items[n]] == items;
    }
  }
}
