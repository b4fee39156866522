/** Vocabulary shared by the other modules: optional values, delivery ids, and bounded suffixes. */
module Common {

  datatype Option<+T> = None | Some(value: T)

  /** JavaScript truthiness of an optional string: absent and empty both read as "no id". */
  predicate HasId(id: Option<string>) {
    id.Some? && id.value != ""
  }

  /** The newest `n` elements of `s`; what is left of a list after shifting its head while it is too long. */
  function LastN<T>(s: seq<T>, n: nat): seq<T> {
    if |s| <= n then s else s[|s| - n..]
  }

  /** The elements that `LastN` cuts off. */
  function CutOff<T>(s: seq<T>, n: nat): seq<T> {
    if |s| <= n then [] else s[..|s| - n]
  }

  ghost predicate Distinct<T>(s: seq<T>) {
    forall i, j :: 0 <= i < j < |s| ==> s[i] != s[j]
  }

  function ToSet<T(==)>(s: seq<T>): set<T> {
    set x | x in s
  }

  lemma CutAndKept<T>(s: seq<T>, n: nat)
    ensures CutOff(s, n) + LastN(s, n) == s
    ensures |LastN(s, n)| <= n
  {
  }

  /** Cutting to `n` in two steps is cutting once. */
  lemma LastNOfAppend<T>(s: seq<T>, t: seq<T>, n: nat)
    ensures LastN(LastN(s, n) + t, n) == LastN(s + t, n)
  {
    if |s| > n {
      assert LastN(s, n) + t == (s + t)[|s| - n..];
    }
  }

  /** A list without repetitions has as many elements as its set. */
  lemma {:induction false} DistinctCardinality<T>(s: seq<T>)
    requires Distinct(s)
    ensures |ToSet(s)| == |s|
  {
    if s != [] {
      var init, last := s[..|s| - 1], s[|s| - 1];
      DistinctCardinality(init);
      assert ToSet(s) == ToSet(init) + {last};
    }
  }
}
