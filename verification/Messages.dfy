/** Messages and the records that every holder of undelivered messages stores. */
module Messages {
  import opened Common

  /**
   * What a delivery carries. `content` stands for the text with its attachments;
   * `member` is true when the sender is known not to own the agent.
   */
  datatype Msg = Msg(content: string, id: Option<string>, member: bool)

  /** Why an item was retained. */
  datatype Source = NoSource | FromStop | InboundTtl | Manual | Inbound | Replace | ContextClear | LoopStop | Migrate

  /**
   * A held message. The holders copy these records into one another and only add or drop
   * fields, so one type serves the pre-spawn buffer, the pause queue, the drain queue and
   * the retained queue.
   */
  datatype Item = Item(msg: Msg, at: int, source: Source, pausa: bool, retido: bool)

  function Plain(msg: Msg, at: int): Item {
    Item(msg, at, NoSource, false, false)
  }

  /** The messages of a list of items, in order. */
  function Loads(items: seq<Item>): seq<Msg> {
    seq(|items|, i requires 0 <= i < |items| => items[i].msg)
  }

  lemma LoadsOfAppend(a: seq<Item>, b: seq<Item>)
    ensures Loads(a + b) == Loads(a) + Loads(b)
  {
  }

  /** Plain items for messages that were taken from a runner at time `now`. */
  function Stamp(msgs: seq<Msg>, now: int): seq<Item> {
    seq(|msgs|, i requires 0 <= i < |msgs| => Plain(msgs[i], now))
  }

  lemma LoadsOfStamp(msgs: seq<Msg>, now: int)
    ensures Loads(Stamp(msgs, now)) == msgs
  {
  }

  /** The items not older than `cutoff`, in order. */
  function Fresh(items: seq<Item>, cutoff: int): seq<Item> {
    if items == [] then []
    else
      var rest := Fresh(items[..|items| - 1], cutoff);
      var last := items[|items| - 1];
      if last.at >= cutoff then rest + [last] else rest
  }

  /** The items older than `cutoff`, in order. */
  function Stale(items: seq<Item>, cutoff: int): seq<Item> {
    if items == [] then []
    else
      var rest := Stale(items[..|items| - 1], cutoff);
      var last := items[|items| - 1];
      if last.at >= cutoff then rest else rest + [last]
  }

  /** Filtering by age loses nothing but the stale items. */
  lemma {:induction false} FreshAndStale(items: seq<Item>, cutoff: int)
    ensures multiset(Loads(items)) == multiset(Loads(Fresh(items, cutoff))) + multiset(Loads(Stale(items, cutoff)))
    ensures |Fresh(items, cutoff)| + |Stale(items, cutoff)| == |items|
  {
    if items != [] {
      var init, last := items[..|items| - 1], items[|items| - 1];
      FreshAndStale(init, cutoff);
      assert init + [last] == items;
      LoadsOfAppend(init, [last]);
      LoadsOfAppend(Fresh(init, cutoff), [last]);
      LoadsOfAppend(Stale(init, cutoff), [last]);
    }
  }

  lemma {:induction false} FreshMembers(items: seq<Item>, cutoff: int)
    ensures forall x :: x in Fresh(items, cutoff) <==> x in items && x.at >= cutoff
  {
    if items != [] {
      FreshMembers(items[..|items| - 1], cutoff);
      assert items == items[..|items| - 1] + [items[|items| - 1]];
    }
  }

  /** Whether some item carries exactly this id; an absent id matches an absent id. */
  predicate CarriesId(items: seq<Item>, id: Option<string>) {
    exists i :: 0 <= i < |items| && items[i].msg.id == id
  }

  lemma CarriesOfAppend(xs: seq<Item>, ys: seq<Item>, id: Option<string>)
    ensures CarriesId(xs + ys, id) <==> CarriesId(xs, id) || CarriesId(ys, id)
  {
    if CarriesId(xs, id) {
      var i :| 0 <= i < |xs| && xs[i].msg.id == id;
      assert (xs + ys)[i].msg.id == id;
    }
    if CarriesId(ys, id) {
      var i :| 0 <= i < |ys| && ys[i].msg.id == id;
      assert (xs + ys)[|xs| + i].msg.id == id;
    }
  }

  lemma CarriesOfOne(item: Item, id: Option<string>)
    ensures CarriesId([item], id) <==> item.msg.id == id
  {
    assert [item][0] == item;
  }

  /** Position of the first message with the given id, or the length when there is none. */
  function FirstWithId(msgs: seq<Msg>, id: string): (i: nat)
    ensures i <= |msgs|
    ensures i < |msgs| ==> msgs[i].id == Some(id)
    ensures forall j :: 0 <= j < i ==> msgs[j].id != Some(id)
  {
    if msgs == [] then 0
    else if msgs[0].id == Some(id) then 0
    else 1 + FirstWithId(msgs[1..], id)
  }

  /** The list with position `i` spliced out; unchanged when `i` is past the end. */
  function Without<T>(s: seq<T>, i: nat): seq<T> {
    if i < |s| then s[..i] + s[i + 1..] else s
  }

  lemma LoadsOfWithout(items: seq<Item>, i: nat)
    ensures Loads(Without(items, i)) == Without(Loads(items), i)
  {
  }

  lemma WithoutKeepsRest<T>(s: seq<T>, i: nat)
    requires i < |s|
    ensures multiset(s) == multiset(Without(s, i)) + multiset{s[i]}
  {
    assert s == s[..i] + [s[i]] + s[i + 1..];
  }
}
