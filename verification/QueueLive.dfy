/**
 * The live-queue snapshot (src/queue-live.ts): what has not become a turn yet, as the
 * server may see it. Sealed projects show only sealed text; the caps cut the newest items.
 */
module QueueLive {
  import opened Common

  /** A text on the wire: in clear, or an `e2e:` blob. */
  datatype Content = Clear(text: string) | E2e(blob: string)

  datatype Origin = User | Agent | System

  /** A project without a key, or one that can try to seal a text. */
  datatype Project = Unkeyed | Keyed(seal: string -> Option<string>)

  datatype WireRecord = WireRecord(content: Content, images: seq<Content>, enqueuedAt: int, origin: Origin,
    silent: bool)

  /** A pending message with its own id and the ids of the messages coalesced into it. */
  datatype Pending = Pending(content: Content, images: seq<Content>, deliveryId: Option<string>,
    coalescedIds: seq<string>)

  /** The id of a snapshot item: a delivery id, or a number given to a message without one. */
  datatype ItemId = Delivery(id: string) | NoId(n: nat)

  datatype LiveItem = LiveItem(deliveryId: ItemId, content: Content, images: seq<Content>, enqueuedAt: int,
    origin: Origin, silent: bool)

  function SealText(seal: string -> Option<string>, c: Content): Option<Content> {
    if c.E2e? then Some(c)
    else match seal(c.text)
      case None => None
      case Some(blob) => Some(E2e(blob))
  }

  /** All images sealed, or none at all when one of them is empty or cannot be sealed. */
  function SealImages(seal: string -> Option<string>, images: seq<Content>): Option<seq<Content>> {
    if images == [] then Some([])
    else
      var init := SealImages(seal, images[..|images| - 1]);
      var last := images[|images| - 1];
      if init.None? || last == Clear("") then None
      else match SealText(seal, last)
        case None => None
        case Some(img) => Some(init.value + [img])
  }

  function Selar(project: Project, content: Content, images: seq<Content>): Option<(Content, seq<Content>)> {
    if project.Unkeyed? then None
    else match SealText(project.seal, content)
      case None => None
      case Some(c) =>
        match SealImages(project.seal, images)
        case None => None
        case Some(imgs) => Some((c, imgs))
  }

  /** The fields of an `agent:send` frame that decide how it is recorded. */
  datatype Frame = Frame(content: Content, parts: nat, images: seq<Content>, origin: Option<Origin>, agentPrefix: bool,
    silent: bool)

  function OrigemDoFrame(msg: Frame): Origin {
    if msg.origin.Some? then msg.origin.value
    else if msg.agentPrefix then Agent
    else if msg.parts > 0 then System
    else User
  }

  /** How a delivery is recorded: the original blob, a resealed text, or, without a key, the text itself. */
  function RegistroDoFrame(msg: Frame, project: Project, finalContent: Content, finalImages: seq<Content>,
                           now: int): Option<WireRecord> {
    if msg.parts == 0 && msg.content.E2e? then
      Some(WireRecord(msg.content, msg.images, now, OrigemDoFrame(msg), msg.silent))
    else if project.Keyed? then
      match Selar(project, finalContent, finalImages)
      case None => None
      case Some((c, imgs)) => Some(WireRecord(c, imgs, now, OrigemDoFrame(msg), msg.silent))
    else
      Some(WireRecord(finalContent, finalImages, now, OrigemDoFrame(msg), msg.silent))
  }

  predicate AllSealed(images: seq<Content>) {
    forall i :: 0 <= i < |images| ==> images[i].E2e?
  }

  /** What is sealed image by image is sealed throughout. */
  lemma {:induction false} SealedImagesAreSealed(seal: string -> Option<string>, images: seq<Content>)
    ensures SealImages(seal, images).Some? ==>
            AllSealed(SealImages(seal, images).value) && |SealImages(seal, images).value| == |images|
  {
    if images != [] {
      SealedImagesAreSealed(seal, images[..|images| - 1]);
    }
  }

  /**
   * In a keyed project no record carries clear text. Its images are sealed too, exactly unless the frame
   * came sealed with a clear image: the attachments of a sealed frame are recorded as they came.
   */
  lemma RecordsOfKeyedProjectAreSealed(msg: Frame, project: Project, finalContent: Content, finalImages: seq<Content>,
                                       now: int)
    requires project.Keyed?
    ensures var r := RegistroDoFrame(msg, project, finalContent, finalImages, now);
            r.Some? ==>
              r.value.content.E2e? &&
              (AllSealed(r.value.images) <==> msg.parts > 0 || msg.content.Clear? || AllSealed(msg.images))
  {
    SealedImagesAreSealed(project.seal, finalImages);
  }

  /** Such a frame leaves a clear image in the record of a keyed project. */
  lemma SealedFrameWithClearImage(project: Project, now: int)
    requires project.Keyed?
    ensures var msg := Frame(E2e("blob"), 0, [Clear("image")], None, false, false);
            var r := RegistroDoFrame(msg, project, Clear("text"), [], now);
            r.Some? && r.value.content.E2e? && !AllSealed(r.value.images)
  {
    assert [Clear("image")][0].Clear?;
  }

  /* ---------- the snapshot without caps ---------- */

  /** One visit: a pending message and one of its ids. */
  datatype Visit = Visit(p: Pending, id: Option<string>)

  /** What a snapshot draws on: the wire records, the project and the time. */
  datatype Env = Env(registros: map<string, WireRecord>, project: Project, now: int)

  /** The records carry no clear text. */
  ghost predicate SealedRecords(env: Env) {
    env.project.Keyed? && forall id :: id in env.registros ==> env.registros[id].content.E2e?
  }

  /** Nor clear images. */
  ghost predicate SealedAttachments(env: Env) {
    env.project.Keyed? && forall id :: id in env.registros ==> AllSealed(env.registros[id].images)
  }

  function VisitsOf(p: Pending): seq<Visit> {
    [Visit(p, p.deliveryId)] + seq(|p.coalescedIds|,
      i requires 0 <= i < |p.coalescedIds| => Visit(p, Some(p.coalescedIds[i])))
  }

  function Visits(pendentes: seq<Pending>): seq<Visit> {
    if pendentes == [] then [] else Visits(pendentes[..|pendentes| - 1]) + VisitsOf(pendentes[|pendentes| - 1])
  }

  /** What has been gathered: items, ids met, messages that could not be sealed, numbers given out. */
  datatype Gathered = Gathered(items: seq<LiveItem>, met: set<string>, omitted: nat, noIds: nat)

  datatype Outcome = Skip | Omit | Show(item: LiveItem)

  /** What becomes of a visit whose id has not been met before. */
  function OutcomeOf(v: Visit, env: Env, noIds: nat): Outcome {
    if HasId(v.id) && v.id.value in env.registros then
      var reg := env.registros[v.id.value];
      Show(LiveItem(Delivery(v.id.value), reg.content, reg.images, reg.enqueuedAt, reg.origin, reg.silent))
    else if v.id == v.p.deliveryId then
      var s := if env.project.Keyed? then Selar(env.project, v.p.content, v.p.images)
        else Some((v.p.content, v.p.images));
      if s.None? then Omit
      else Show(LiveItem(if v.id.Some? then Delivery(v.id.value)
        else NoId(noIds), s.value.0, s.value.1, env.now, System, false))
    else Skip
  }

  function Gather(g: Gathered, v: Visit, env: Env): Gathered {
    if HasId(v.id) && v.id.value in g.met then g
    else
      var g' := if HasId(v.id) then g.(met := g.met + {v.id.value}) else g;
      match OutcomeOf(v, env, g.noIds)
      case Skip => g'
      case Omit => g'.(omitted := g.omitted + 1)
      case Show(item) => g'.(items := g.items + [item], noIds := g.noIds + if item.deliveryId.NoId? then 1 else 0)
  }

  function GatherAll(visits: seq<Visit>, env: Env): Gathered {
    if visits == [] then Gathered([], {}, 0, 0)
    else Gather(GatherAll(visits[..|visits| - 1], env), visits[|visits| - 1], env)
  }

  /** The snapshot nobody cuts. */
  function Uncapped(pendentes: seq<Pending>, env: Env): Gathered {
    GatherAll(Visits(pendentes), env)
  }

  ghost predicate IdsOnce(g: Gathered) {
    && (forall i :: 0 <= i < |g.items| && g.items[i].deliveryId.Delivery? && g.items[i].deliveryId.id != "" ==>
      g.items[i].deliveryId.id in g.met)
    && (forall i :: 0 <= i < |g.items| && g.items[i].deliveryId.NoId? ==> g.items[i].deliveryId.n < g.noIds)
    && (forall i, j :: 0 <= i < j < |g.items| && g.items[i].deliveryId == g.items[j].deliveryId ==>
      g.items[i].deliveryId == Delivery(""))
  }

  /** No real id appears twice, and the numbers given out are all different. */
  lemma {:induction false} NoIdTwice(visits: seq<Visit>, env: Env)
    ensures IdsOnce(GatherAll(visits, env))
  {
    if visits != [] {
      NoIdTwice(visits[..|visits| - 1], env);
    }
  }

  /** In a keyed project the snapshot shows only sealed texts when the records have them, and likewise for images. */
  lemma {:induction false} EverythingSealed(visits: seq<Visit>, env: Env)
    ensures SealedRecords(env) ==>
              forall i :: 0 <= i < |GatherAll(visits, env).items| ==> GatherAll(visits, env).items[i].content.E2e?
    ensures SealedAttachments(env) ==>
              forall i :: 0 <= i < |GatherAll(visits, env).items| ==> AllSealed(GatherAll(visits, env).items[i].images)
  {
    if visits != [] {
      var v := visits[|visits| - 1];
      EverythingSealed(visits[..|visits| - 1], env);
      if env.project.Keyed? {
        SealedImagesAreSealed(env.project.seal, v.p.images);
      }
    }
  }

  /** Gathering more only appends items. */
  lemma {:induction false} GatheringAppends(visits: seq<Visit>, n: nat, env: Env)
    requires n <= |visits|
    ensures GatherAll(visits[..n], env).items <= GatherAll(visits, env).items
    ensures GatherAll(visits[..n], env).omitted <= GatherAll(visits, env).omitted
  {
    if n == |visits| {
      assert visits[..n] == visits;
    } else {
      var init := visits[..|visits| - 1];
      assert init[..n] == visits[..n];
      GatheringAppends(init, n, env);
    }
  }

  /** Shown in clear without a key, sealed with one. */
  predicate SealedAs(project: Project, text: Content, images: seq<Content>, text': Content, images': seq<Content>) {
    match project
    case Unkeyed => text' == text && images' == images
    case Keyed(seal) => SealsTo(seal, text, text') && SealAllTo(seal, images, images')
  }

  /* ---------- what the snapshot shows, told from the pending messages ---------- */

  /** How a text must look when it is shown sealed. */
  predicate SealsTo(seal: string -> Option<string>, c: Content, d: Content) {
    if c.E2e? then d == c else seal(c.text).Some? && d == E2e(seal(c.text).value)
  }

  predicate CanSeal(seal: string -> Option<string>, c: Content) {
    c.E2e? || seal(c.text).Some?
  }

  predicate SealAllTo(seal: string -> Option<string>, images: seq<Content>, sealed: seq<Content>) {
    |sealed| == |images| && forall i :: 0 <= i < |images| ==> SealsTo(seal, images[i], sealed[i])
  }

  /** A keyed project can show a message iff its text and every image can be sealed, and no image is empty. */
  predicate Presentable(p: Pending, project: Project) {
    match project
    case Unkeyed => true
    case Keyed(seal) =>
      && CanSeal(seal, p.content)
      && forall i :: 0 <= i < |p.images| ==> p.images[i] != Clear("") && CanSeal(seal, p.images[i])
  }

  lemma {:induction false} SealImagesIsExact(seal: string -> Option<string>, images: seq<Content>)
    ensures var r := SealImages(seal, images);
            && (r.Some? <==> forall i :: 0 <= i < |images| ==> images[i] != Clear("") && CanSeal(seal, images[i]))
            && (r.Some? ==> SealAllTo(seal, images, r.value))
  {
    if images != [] {
      var n := |images| - 1;
      SealImagesIsExact(seal, images[..n]);
      assert forall i :: 0 <= i < n ==> images[..n][i] == images[i];
    }
  }

  predicate Recorded(id: Option<string>, env: Env) {
    HasId(id) && id.value in env.registros
  }

  /** An id shows its message when it has a record, or is the message's own and the text may be shown. */
  predicate Appears(p: Pending, id: Option<string>, env: Env) {
    Recorded(id, env) || (id == p.deliveryId && Presentable(p, env.project))
  }

  /** An own id without a record whose text may not be shown. */
  predicate Withheld(p: Pending, id: Option<string>, env: Env) {
    !Recorded(id, env) && id == p.deliveryId && !Presentable(p, env.project)
  }

  /** The item of an id: every field of its record, or the message itself, in clear only without a key. */
  predicate ShownAs(item: LiveItem, p: Pending, id: Option<string>, env: Env) {
    if Recorded(id, env) then
      var reg := env.registros[id.value];
      && item.deliveryId == Delivery(id.value) && item.content == reg.content && item.images == reg.images
      && item.enqueuedAt == reg.enqueuedAt && item.origin == reg.origin && item.silent == reg.silent
    else
      && (if id.Some? then item.deliveryId == Delivery(id.value) else item.deliveryId.NoId?)
      && item.enqueuedAt == env.now && item.origin == System && !item.silent
      && SealedAs(env.project, p.content, p.images, item.content, item.images)
  }

  /**
   * A delivery is recorded as it came when it came sealed in one piece; else as it will be shown, if it may be shown
   * at all. The frame's own origin wins; without one a "[from " prefix means an agent, parts the system.
   */
  lemma RecordIsRight(msg: Frame, project: Project, text: Content, images: seq<Content>, now: int)
    ensures var r, whole := RegistroDoFrame(msg, project, text, images, now), msg.parts == 0 && msg.content.E2e?;
            && (r.Some? <==> whole || Presentable(Pending(text, images, None, []), project))
            && (r.Some? && whole ==> r.value.content == msg.content && r.value.images == msg.images)
            && (r.Some? && !whole ==> SealedAs(project, text, images, r.value.content, r.value.images))
            && (r.Some? ==> r.value.enqueuedAt == now && r.value.silent == msg.silent)
            && (r.Some? && msg.origin.Some? ==> r.value.origin == msg.origin.value)
            && (r.Some? && msg.origin.None? ==>
                  (r.value.origin == Agent <==> msg.agentPrefix) &&
                  (r.value.origin == System <==> !msg.agentPrefix && msg.parts > 0))
  {
    if project.Keyed? {
      SealImagesIsExact(project.seal, images);
    }
  }

  lemma OutcomeIsRight(v: Visit, env: Env, noIds: nat)
    ensures var o := OutcomeOf(v, env, noIds);
            && (o.Show? <==> Appears(v.p, v.id, env))
            && (o.Omit? <==> Withheld(v.p, v.id, env))
            && (o.Show? ==> ShownAs(o.item, v.p, v.id, env))
            && (o.Show? && o.item.deliveryId.NoId? ==> o.item.deliveryId.n == noIds)
  {
    if env.project.Keyed? {
      SealImagesIsExact(env.project.seal, v.p.images);
    }
  }

  /** A real id shows only where it is met first. */
  ghost predicate First(visits: seq<Visit>, n: nat)
    requires n < |visits|
  {
    HasId(visits[n].id) ==> forall m :: 0 <= m < n ==> visits[m].id != visits[n].id
  }

  lemma {:induction false} MetAreVisited(visits: seq<Visit>, env: Env, id: string)
    requires id != ""
    ensures id in GatherAll(visits, env).met <==> exists m :: 0 <= m < |visits| && visits[m].id == Some(id)
  {
    if visits != [] {
      var n := |visits| - 1;
      MetAreVisited(visits[..n], env, id);
      assert forall m :: 0 <= m < n ==> visits[..n][m] == visits[m];
    }
  }

  /** How many items carry a made-up number. */
  function Unnamed(items: seq<LiveItem>): nat {
    if items == [] then 0
    else Unnamed(items[..|items| - 1]) + if items[|items| - 1].deliveryId.NoId? then 1 else 0
  }

  ghost predicate Numbered(items: seq<LiveItem>) {
    forall j :: 0 <= j < |items| && items[j].deliveryId.NoId? ==> items[j].deliveryId.n == Unnamed(items[..j])
  }

  ghost predicate Increasing(xs: seq<nat>) {
    forall i, j :: 0 <= i < j < |xs| ==> xs[i] < xs[j]
  }

  ghost predicate ShowsAt(visits: seq<Visit>, n: nat, env: Env) {
    n < |visits| && First(visits, n) && Appears(visits[n].p, visits[n].id, env)
  }

  ghost predicate WithheldAt(visits: seq<Visit>, n: nat, env: Env) {
    n < |visits| && First(visits, n) && Withheld(visits[n].p, visits[n].id, env)
  }

  /** The visits that show an item. */
  ghost function ShownIn(visits: seq<Visit>, env: Env): seq<nat> {
    if visits == [] then []
    else
      var n := |visits| - 1;
      ShownIn(visits[..n], env) + if ShowsAt(visits, n, env) then [n] else []
  }

  /** The visits whose message is withheld. */
  ghost function LostIn(visits: seq<Visit>, env: Env): seq<nat> {
    if visits == [] then []
    else
      var n := |visits| - 1;
      LostIn(visits[..n], env) + if WithheldAt(visits, n, env) then [n] else []
  }

  /** The items, each that of its visit. */
  ghost predicate ItemsOf(items: seq<LiveItem>, shown: seq<nat>, visits: seq<Visit>, env: Env) {
    && |shown| == |items| && Numbered(items)
    && forall j :: 0 <= j < |shown| ==>
         shown[j] < |visits| && ShownAs(items[j], visits[shown[j]].p, visits[shown[j]].id, env)
  }

  lemma NumberedGrows(items: seq<LiveItem>, item: LiveItem)
    requires Numbered(items) && (item.deliveryId.NoId? ==> item.deliveryId.n == Unnamed(items))
    ensures Numbered(items + [item])
    ensures Unnamed(items + [item]) == Unnamed(items) + if item.deliveryId.NoId? then 1 else 0
  {
    var all := items + [item];
    assert all[..|items|] == items;
    forall j | 0 <= j < |items| ensures all[..j] == items[..j] {
    }
  }

  lemma FirstInPrefix(visits: seq<Visit>, n: nat, m: nat)
    requires m < n <= |visits|
    ensures visits[..n][m] == visits[m] && (First(visits[..n], m) <==> First(visits, m))
  {
  }

  lemma {:induction false} ShownInIsAll(visits: seq<Visit>, env: Env)
    ensures Increasing(ShownIn(visits, env)) && forall n: nat :: n in ShownIn(visits, env) <==> ShowsAt(visits, n, env)
  {
    if visits != [] {
      var n := |visits| - 1;
      var before := ShownIn(visits[..n], env);
      ShownInIsAll(visits[..n], env);
      forall j | 0 <= j < |before| ensures before[j] < n {
        assert before[j] in before;
      }
      forall m: nat | m < n ensures ShowsAt(visits[..n], m, env) <==> ShowsAt(visits, m, env) {
        FirstInPrefix(visits, n, m);
      }
    }
  }

  lemma {:induction false} LostInIsAll(visits: seq<Visit>, env: Env)
    ensures Increasing(LostIn(visits, env)) && forall n: nat :: n in LostIn(visits, env) <==> WithheldAt(visits, n, env)
  {
    if visits != [] {
      var n := |visits| - 1;
      var before := LostIn(visits[..n], env);
      LostInIsAll(visits[..n], env);
      forall j | 0 <= j < |before| ensures before[j] < n {
        assert before[j] in before;
      }
      forall m: nat | m < n ensures WithheldAt(visits[..n], m, env) <==> WithheldAt(visits, m, env) {
        FirstInPrefix(visits, n, m);
      }
    }
  }

  lemma {:induction false} ListsAppend(visits: seq<Visit>, n: nat, env: Env)
    requires n <= |visits|
    ensures ShownIn(visits[..n], env) <= ShownIn(visits, env) && LostIn(visits[..n], env) <= LostIn(visits, env)
  {
    if n == |visits| {
      assert visits[..n] == visits;
    } else {
      var init := visits[..|visits| - 1];
      assert init[..n] == visits[..n];
      ListsAppend(init, n, env);
    }
  }

  lemma ItemsGrow(items: seq<LiveItem>, shown: seq<nat>, visits: seq<Visit>, n: nat, item: LiveItem, env: Env)
    requires n + 1 == |visits| && ItemsOf(items, shown, visits[..n], env)
    requires ShownAs(item, visits[n].p, visits[n].id, env)
    requires item.deliveryId.NoId? ==> item.deliveryId.n == Unnamed(items)
    ensures ItemsOf(items + [item], shown + [n], visits, env)
  {
    NumberedGrows(items, item);
  }

  lemma ItemsStay(items: seq<LiveItem>, shown: seq<nat>, visits: seq<Visit>, n: nat, env: Env)
    requires n <= |visits| && ItemsOf(items, shown, visits[..n], env)
    ensures ItemsOf(items, shown, visits, env)
  {
  }

  /** What one more visit does to what has been gathered. */
  lemma VisitTold(visits: seq<Visit>, n: nat, env: Env)
    requires n + 1 == |visits|
    ensures var g, g' := GatherAll(visits[..n], env), GatherAll(visits, env);
            && g'.omitted == g.omitted + (if WithheldAt(visits, n, env) then 1 else 0)
            && (!ShowsAt(visits, n, env) ==> g'.items == g.items && g'.noIds == g.noIds)
            && (ShowsAt(visits, n, env) ==>
                  exists item :: g'.items == g.items + [item] && ShownAs(item, visits[n].p, visits[n].id, env) &&
                    (item.deliveryId.NoId? ==> item.deliveryId.n == g.noIds) &&
                    g'.noIds == g.noIds + if item.deliveryId.NoId? then 1 else 0)
  {
    var before, v := visits[..n], visits[n];
    var g := GatherAll(before, env);
    if HasId(v.id) {
      MetAreVisited(before, env, v.id.value);
    }
    assert First(visits, n) <==> !(HasId(v.id) && v.id.value in g.met);
    OutcomeIsRight(v, env, g.noIds);
  }

  ghost predicate VisitsTold(visits: seq<Visit>, env: Env) {
    var g := GatherAll(visits, env);
    ItemsOf(g.items, ShownIn(visits, env), visits, env) && |LostIn(visits, env)| == g.omitted &&
    g.noIds == Unnamed(g.items)
  }

  lemma {:induction false} EveryVisitTold(visits: seq<Visit>, env: Env)
    ensures VisitsTold(visits, env)
  {
    if visits == [] {
      assert GatherAll(visits, env) == Gathered([], {}, 0, 0);
    } else {
      var n := |visits| - 1;
      var items, all := GatherAll(visits[..n], env).items, GatherAll(visits, env).items;
      var shown := ShownIn(visits[..n], env);
      EveryVisitTold(visits[..n], env);
      VisitTold(visits, n, env);
      if ShowsAt(visits, n, env) {
        ItemsGrow(items, shown, visits, n, all[|items|], env);
        NumberedGrows(items, all[|items|]);
      } else {
        ItemsStay(items, shown, visits, n, env);
      }
    }
  }

  /* ---------- the same by message and id ---------- */

  /** An id of a pending message: its own at 0, the coalesced ones after it. */
  datatype Place = Place(k: nat, i: nat)

  predicate Within(at: Place, pendentes: seq<Pending>) {
    at.k < |pendentes| && at.i <= |pendentes[at.k].coalescedIds|
  }

  predicate Earlier(a: Place, b: Place) {
    a.k < b.k || (a.k == b.k && a.i < b.i)
  }

  function IdAt(pendentes: seq<Pending>, at: Place): Option<string>
    requires Within(at, pendentes)
  {
    if at.i == 0 then pendentes[at.k].deliveryId else Some(pendentes[at.k].coalescedIds[at.i - 1])
  }

  /** Nothing earlier has the same real id. */
  ghost predicate FirstMet(pendentes: seq<Pending>, at: Place)
    requires Within(at, pendentes)
  {
    HasId(IdAt(pendentes, at)) ==>
      forall b :: Within(b, pendentes) && Earlier(b, at) ==> IdAt(pendentes, b) != IdAt(pendentes, at)
  }

  ghost predicate InOrder(places: seq<Place>) {
    forall i, j :: 0 <= i < j < |places| ==> Earlier(places[i], places[j])
  }

  /**
   * One item for each id met first that has a record, or is its message's own and may be shown; in that
   * order, and with these fields. One omission for each own id without a record that may not be shown.
   */
  ghost predicate Tells(all: seq<LiveItem>, pendentes: seq<Pending>, env: Env, shown: seq<Place>, lost: seq<Place>) {
    && InOrder(shown) && InOrder(lost) && |shown| == |all|
    && (forall at :: at in shown <==>
          Within(at, pendentes) && FirstMet(pendentes, at) && Appears(pendentes[at.k], IdAt(pendentes, at), env))
    && (forall at :: at in lost <==>
          Within(at, pendentes) && FirstMet(pendentes, at) && Withheld(pendentes[at.k], IdAt(pendentes, at), env))
    && (forall j :: 0 <= j < |shown| ==>
          Within(shown[j], pendentes) && ShownAs(all[j], pendentes[shown[j].k], IdAt(pendentes, shown[j]), env))
    && Numbered(all)
  }

  function Index(pendentes: seq<Pending>, at: Place): nat
    requires Within(at, pendentes)
  {
    |Visits(pendentes[..at.k])| + at.i
  }

  lemma VisitAtPlace(pendentes: seq<Pending>, at: Place)
    requires Within(at, pendentes)
    ensures Index(pendentes, at) < |Visits(pendentes)|
    ensures Visits(pendentes)[Index(pendentes, at)] == Visit(pendentes[at.k], IdAt(pendentes, at))
  {
    VisitsAt(pendentes, at.k);
    VisitInSlice(pendentes[at.k], Visits(pendentes), |Visits(pendentes[..at.k])|, at.i);
  }

  lemma IndexKeepsOrder(pendentes: seq<Pending>, a: Place, b: Place)
    requires Within(a, pendentes) && Within(b, pendentes) && Earlier(a, b)
    ensures Index(pendentes, a) < Index(pendentes, b)
  {
    if a.k < b.k {
      VisitsAt(pendentes, a.k);
      VisitsUpTo(pendentes[..b.k], a.k + 1);
      assert pendentes[..b.k][..a.k + 1] == pendentes[..a.k + 1];
    }
  }

  lemma {:induction false} PlaceOf(pendentes: seq<Pending>, n: nat) returns (at: Place)
    requires n < |Visits(pendentes)|
    ensures Within(at, pendentes) && Index(pendentes, at) == n
  {
    var last := |pendentes| - 1;
    var init := pendentes[..last];
    if n < |Visits(init)| {
      at := PlaceOf(init, n);
      assert init[..at.k] == pendentes[..at.k];
    } else {
      at := Place(last, n - |Visits(init)|);
    }
  }

  lemma FirstByIndex(pendentes: seq<Pending>, at: Place)
    requires Within(at, pendentes)
    ensures Index(pendentes, at) < |Visits(pendentes)|
    ensures First(Visits(pendentes), Index(pendentes, at)) <==> FirstMet(pendentes, at)
  {
    var visits, n := Visits(pendentes), Index(pendentes, at);
    VisitAtPlace(pendentes, at);
    if First(visits, n) {
      forall b | Within(b, pendentes) && Earlier(b, at) && HasId(visits[n].id)
          ensures IdAt(pendentes, b) != IdAt(pendentes, at) {
        VisitAtPlace(pendentes, b);
        IndexKeepsOrder(pendentes, b, at);
      }
    } else {
      var m :| 0 <= m < n && visits[m].id == visits[n].id;
      var b := PlaceOf(pendentes, m);
      VisitAtPlace(pendentes, b);
      if !Earlier(b, at) && b != at {
        IndexKeepsOrder(pendentes, at, b);
      }
    }
  }

  /** The places of some visits, in their order. */
  ghost predicate PlacesAre(pendentes: seq<Pending>, ns: seq<nat>, places: seq<Place>) {
    && |places| == |ns| && InOrder(places)
    && (forall j :: 0 <= j < |ns| ==> Within(places[j], pendentes) && Index(pendentes, places[j]) == ns[j])
    && (forall at :: at in places <==> Within(at, pendentes) && Index(pendentes, at) in ns)
  }

  lemma PlacesOf(pendentes: seq<Pending>, ns: seq<nat>) returns (places: seq<Place>)
    requires Increasing(ns) && forall n :: n in ns ==> n < |Visits(pendentes)|
    ensures PlacesAre(pendentes, ns, places)
  {
    places := [];
    for i := 0 to |ns|
      invariant |places| == i && forall j :: 0 <= j < |ns| ==> ns[j] in ns
      invariant forall j :: 0 <= j < i ==> Within(places[j], pendentes) && Index(pendentes, places[j]) == ns[j]
    {
      var at := PlaceOf(pendentes, ns[i]);
      places := places + [at];
    }
    forall i, j | 0 <= i < j < |places| ensures Earlier(places[i], places[j]) {
      OneAtIndex(pendentes, places[i], places[j]);
    }
    forall at | Within(at, pendentes) && Index(pendentes, at) in ns ensures at in places {
      var j :| 0 <= j < |ns| && ns[j] == Index(pendentes, at);
      OneAtIndex(pendentes, at, places[j]);
    }
  }

  lemma OneAtIndex(pendentes: seq<Pending>, a: Place, b: Place)
    requires Within(a, pendentes) && Within(b, pendentes)
    ensures Index(pendentes, a) < Index(pendentes, b) ==> Earlier(a, b)
    ensures Index(pendentes, a) == Index(pendentes, b) ==> a == b
  {
    if Earlier(a, b) {
      IndexKeepsOrder(pendentes, a, b);
    } else if a != b {
      IndexKeepsOrder(pendentes, b, a);
    }
  }

  /** The places of the visits that show an item, and of those that are withheld, say what the visits say. */
  lemma PlacesTell(pendentes: seq<Pending>, env: Env, shown: seq<Place>, lost: seq<Place>)
    requires var visits := Visits(pendentes);
             PlacesAre(pendentes, ShownIn(visits, env), shown) && PlacesAre(pendentes, LostIn(visits, env), lost)
    ensures Tells(Uncapped(pendentes, env).items, pendentes, env, shown, lost)
  {
    var visits := Visits(pendentes);
    EveryVisitTold(visits, env);
    ShownInIsAll(visits, env);
    LostInIsAll(visits, env);
    forall at | Within(at, pendentes)
        ensures Index(pendentes, at) < |visits|
        ensures visits[Index(pendentes, at)] == Visit(pendentes[at.k], IdAt(pendentes, at))
        ensures First(visits, Index(pendentes, at)) <==> FirstMet(pendentes, at) {
      VisitAtPlace(pendentes, at);
      FirstByIndex(pendentes, at);
    }
  }

  /* ---------- the caps ---------- */

  type Measure = LiveItem -> nat

  /** The caps of the protocol, and how it measures an item. */
  datatype Caps = Caps(maxItems: nat, maxBytes: nat, bytes: Measure)

  function Bytes(items: seq<LiveItem>, bytes: Measure): nat {
    if items == [] then 0 else Bytes(items[..|items| - 1], bytes) + bytes(items[|items| - 1])
  }

  predicate Fits(items: seq<LiveItem>, caps: Caps) {
    |items| <= caps.maxItems && Bytes(items, caps.bytes) <= caps.maxBytes
  }

  /** `cut` is the longest prefix of `all` within the caps. */
  ghost predicate LongestFitting(cut: seq<LiveItem>, all: seq<LiveItem>, caps: Caps) {
    cut <= all && forall n :: 0 <= n <= |all| ==> (Fits(all[..n], caps) <==> n <= |cut|)
  }

  lemma {:induction false} BytesGrow(items: seq<LiveItem>, n: nat, m: nat, bytes: Measure)
    requires n <= m <= |items|
    ensures Bytes(items[..n], bytes) <= Bytes(items[..m], bytes)
  {
    if n < m {
      assert items[..m][..m - 1] == items[..m - 1];
      BytesGrow(items, n, m - 1, bytes);
    }
  }

  /** A prefix that fits, and whose extension by one does not, is the longest that fits. */
  lemma CutIsLongest(cut: seq<LiveItem>, all: seq<LiveItem>, caps: Caps)
    requires cut <= all && Fits(cut, caps)
    requires |cut| < |all| ==> !Fits(all[..|cut| + 1], caps)
    ensures LongestFitting(cut, all, caps)
  {
    forall n | 0 <= n <= |all| ensures Fits(all[..n], caps) <==> n <= |cut| {
      assert all[..|cut|] == cut;
      if n <= |cut| {
        BytesGrow(all, n, |cut|, caps.bytes);
      } else {
        BytesGrow(all, |cut| + 1, n, caps.bytes);
      }
    }
  }

  /** One visit, gathered or cut at. */
  lemma VisitDone(visits: seq<Visit>, n: nat, env: Env, g: Gathered, g': Gathered, cut: bool, caps: Caps)
    requires n < |visits| && g == GatherAll(visits[..n], env) && Fits(g.items, caps)
    requires VisitedTo(g, visits[n], env, g', cut, caps)
    ensures if cut then IsSnapshot(g'.items, true, g'.omitted, visits, env, caps)
            else g' == GatherAll(visits[..n + 1], env)
  {
    GatherStep(visits, n, env);
    if cut {
      CutHere(visits, n, env, g', caps);
    }
  }

  ghost predicate Carried(items: seq<LiveItem>, used: nat, caps: Caps) {
    used == Bytes(items, caps.bytes) && Fits(items, caps)
  }

  /** The outcome of a visit under the caps. */
  ghost predicate VisitedTo(g: Gathered, v: Visit, env: Env, g': Gathered, cut: bool, caps: Caps) {
    var next := Gather(g, v, env);
    if cut then g'.items == g.items && g'.omitted == g.omitted &&
                g.items < next.items && |next.items| == |g.items| + 1 && !Fits(next.items, caps)
    else g' == next
  }

  /** One visit under the caps: gathered as without them, or cut at an item that no longer fits. */
  method Visitar(v: Visit, env: Env, g: Gathered, used: nat, caps: Caps)
    returns (g': Gathered, used': nat, cut: bool)
    requires Carried(g.items, used, caps)
    ensures Carried(g'.items, used', caps)
    ensures VisitedTo(g, v, env, g', cut, caps)
  {
    g', used', cut := g, used, false;
    if HasId(v.id) && v.id.value in g.met {
      return;
    }
    if HasId(v.id) {
      g' := g'.(met := g.met + {v.id.value});
    }
    var outcome := OutcomeOf(v, env, g.noIds);
    match outcome {
      case Skip =>
      case Omit => g' := g'.(omitted := g.omitted + 1);
      case Show(item) =>
        ghost var grown := g.items + [item];
        assert grown[..|grown| - 1] == g.items;
        if |g.items| >= caps.maxItems || used + caps.bytes(item) > caps.maxBytes {
          cut := true;
          return;
        }
        used' := used + caps.bytes(item);
        g' := g'.(items := g.items + [item], noIds := g.noIds + if item.deliveryId.NoId? then 1 else 0);
    }
  }

  /** What was gathered by the first `n` visits: all of them, or those before the first item that no longer fits. */
  ghost predicate GatheredBy(n: nat, items: seq<LiveItem>, truncated: bool, omitted: nat, visits: seq<Visit>,
                             env: Env)
  {
    && n <= |visits| && (truncated <==> n < |visits|)
    && items == GatherAll(visits[..n], env).items && omitted == GatherAll(visits[..n], env).omitted
    && (truncated ==> ShowsAt(visits, n, env))
  }

  /** The longest fitting prefix, said to be truncated exactly when something was cut. */
  ghost predicate IsSnapshot(items: seq<LiveItem>, truncated: bool, omitted: nat, visits: seq<Visit>, env: Env,
                             caps: Caps) {
    && LongestFitting(items, GatherAll(visits, env).items, caps)
    && (truncated <==> |items| < |GatherAll(visits, env).items|)
    && exists n: nat :: GatheredBy(n, items, truncated, omitted, visits, env)
  }

  /** Stopping where the next item no longer fits leaves the longest fitting prefix. */
  lemma CutHere(visits: seq<Visit>, n: nat, env: Env, g: Gathered, caps: Caps)
    requires n < |visits|
    requires g.items == GatherAll(visits[..n], env).items && g.omitted == GatherAll(visits[..n], env).omitted
    requires var next := GatherAll(visits[..n + 1], env);
             Fits(g.items, caps) && |next.items| == |g.items| + 1 && !Fits(next.items, caps)
    ensures IsSnapshot(g.items, true, g.omitted, visits, env, caps)
  {
    var next := GatherAll(visits[..n + 1], env);
    var all := GatherAll(visits, env);
    GatheringAppends(visits, n, env);
    GatheringAppends(visits, n + 1, env);
    assert all.items[..|g.items| + 1] == next.items;
    CutIsLongest(g.items, all.items, caps);
    assert visits[..n + 1][..n] == visits[..n];
    VisitTold(visits[..n + 1], n, env);
    FirstInPrefix(visits, n + 1, n);
    assert GatheredBy(n, g.items, true, g.omitted, visits, env);
  }

  lemma NothingCut(visits: seq<Visit>, env: Env, caps: Caps)
    requires Fits(GatherAll(visits, env).items, caps)
    ensures var g := GatherAll(visits, env);
            IsSnapshot(g.items, false, g.omitted, visits, env, caps)
  {
    var g := GatherAll(visits, env);
    assert visits[..|visits|] == visits;
    CutIsLongest(g.items, g.items, caps);
    assert GatheredBy(|visits|, g.items, false, g.omitted, visits, env);
  }

  /** The messages withheld before the first item that was cut; all of them when none was. */
  ghost predicate UpToTheCut(omitted: nat, n: nat, shown: seq<Place>, lost: seq<Place>)
    requires n <= |shown|
  {
    && omitted <= |lost| && (n == |shown| ==> omitted == |lost|)
    && (n < |shown| ==> forall i :: 0 <= i < |lost| ==> (i < omitted <==> Earlier(lost[i], shown[n])))
  }

  /** The items are the longest fitting prefix of what there is to show; truncated iff something was cut. */
  ghost predicate Shows(items: seq<LiveItem>, truncated: bool, omitted: nat, pendentes: seq<Pending>, env: Env,
                        caps: Caps, all: seq<LiveItem>, shown: seq<Place>, lost: seq<Place>) {
    && Tells(all, pendentes, env, shown, lost)
    && LongestFitting(items, all, caps) && (truncated <==> |items| < |all|)
    && UpToTheCut(omitted, |items|, shown, lost)
  }

  lemma LostBefore(visits: seq<Visit>, n: nat, env: Env)
    requires n <= |visits|
    ensures var gone, away := LostIn(visits[..n], env), LostIn(visits, env);
            gone <= away && forall i :: 0 <= i < |away| ==> (i < |gone| <==> away[i] < n)
  {
    var gone, away := LostIn(visits[..n], env), LostIn(visits, env);
    ListsAppend(visits, n, env);
    LostInIsAll(visits, env);
    LostInIsAll(visits[..n], env);
    forall i | 0 <= i < |away| ensures i < |gone| <==> away[i] < n {
      assert away[i] in away;
      if i < |gone| {
        assert gone[i] in gone && gone[i] == away[i];
      } else {
        forall j | 0 <= j < |gone| ensures gone[j] != away[i] {
          assert gone[j] == away[j];
        }
        assert away[i] !in gone;
        if away[i] < n {
          FirstInPrefix(visits, n, away[i]);
        }
      }
    }
  }

  lemma CountedToTheCut(pendentes: seq<Pending>, env: Env, n: nat, shown: seq<Place>, lost: seq<Place>)
    requires var visits := Visits(pendentes);
             && PlacesAre(pendentes, ShownIn(visits, env), shown) && PlacesAre(pendentes, LostIn(visits, env), lost)
             && n < |visits| && ShowsAt(visits, n, env)
    ensures var visits := Visits(pendentes);
            var before := |ShownIn(visits[..n], env)|;
            before < |shown| && UpToTheCut(|LostIn(visits[..n], env)|, before, shown, lost)
  {
    var visits := Visits(pendentes);
    var before, gone := ShownIn(visits[..n], env), LostIn(visits[..n], env);
    var all, away := ShownIn(visits, env), LostIn(visits, env);
    ListsAppend(visits, n, env);
    ListsAppend(visits, n + 1, env);
    assert visits[..n + 1][..n] == visits[..n];
    FirstInPrefix(visits, n + 1, n);
    assert ShownIn(visits[..n + 1], env) == before + [n];
    assert all[|before|] == n;
    LostBefore(visits, n, env);
    forall i | 0 <= i < |lost| ensures i < |gone| <==> Earlier(lost[i], shown[|before|]) {
      OneAtIndex(pendentes, lost[i], shown[|before|]);
      OneAtIndex(pendentes, shown[|before|], lost[i]);
      assert away[i] in away && all[|before|] in all;
    }
  }

  lemma SnapshotTold(items: seq<LiveItem>, truncated: bool, omitted: nat, pendentes: seq<Pending>, env: Env, caps: Caps)
    returns (shown: seq<Place>, lost: seq<Place>)
    requires IsSnapshot(items, truncated, omitted, Visits(pendentes), env, caps)
    ensures Shows(items, truncated, omitted, pendentes, env, caps, Uncapped(pendentes, env).items, shown, lost)
  {
    var visits := Visits(pendentes);
    ShownInIsAll(visits, env);
    LostInIsAll(visits, env);
    shown := PlacesOf(pendentes, ShownIn(visits, env));
    lost := PlacesOf(pendentes, LostIn(visits, env));
    PlacesTell(pendentes, env, shown, lost);
    var n: nat :| GatheredBy(n, items, truncated, omitted, visits, env);
    EveryVisitTold(visits[..n], env);
    if n < |visits| {
      CountedToTheCut(pendentes, env, n, shown, lost);
    } else {
      assert visits[..n] == visits;
    }
  }

  lemma GatherStep(visits: seq<Visit>, n: nat, env: Env)
    requires n < |visits|
    ensures GatherAll(visits[..n + 1], env) == Gather(GatherAll(visits[..n], env), visits[n], env)
  {
    assert visits[..n + 1][..n] == visits[..n];
  }

  /** Where the visits of a pending message stand among all visits. */
  lemma VisitsAt(pendentes: seq<Pending>, k: nat)
    requires k < |pendentes|
    ensures var base, vs := |Visits(pendentes[..k])|, VisitsOf(pendentes[k]);
            |Visits(pendentes[..k + 1])| == base + |vs| <= |Visits(pendentes)| &&
            Visits(pendentes)[base..base + |vs|] == vs
  {
    VisitsPrefix(pendentes, k + 1);
    assert pendentes[..k + 1][..k] == pendentes[..k];
    var upto := Visits(pendentes[..k + 1]);
    assert upto == Visits(pendentes[..k]) + VisitsOf(pendentes[k]);
    assert Visits(pendentes)[..|upto|] == upto;
  }

  lemma VisitInSlice(p: Pending, visits: seq<Visit>, base: nat, i: nat)
    requires base + |VisitsOf(p)| <= |visits| && visits[base..base + |VisitsOf(p)|] == VisitsOf(p)
    requires i <= |p.coalescedIds|
    ensures visits[base + i] == Visit(p, if i == 0 then p.deliveryId else Some(p.coalescedIds[i - 1]))
  {
    assert visits[base + i] == visits[base..base + |VisitsOf(p)|][i];
  }

  /** Visits the ids of one pending message: its own, then the coalesced ones. */
  method VisitarPendente(p: Pending, env: Env, g0: Gathered, used0: nat, caps: Caps, ghost visits: seq<Visit>,
                         ghost base: nat)
    returns (g: Gathered, used: nat, truncated: bool)
    requires base + |VisitsOf(p)| <= |visits| && visits[base..base + |VisitsOf(p)|] == VisitsOf(p)
    requires g0 == GatherAll(visits[..base], env) && Carried(g0.items, used0, caps)
    ensures if truncated
            then IsSnapshot(g.items, true, g.omitted, visits, env, caps)
            else g == GatherAll(visits[..base + |VisitsOf(p)|], env) && Carried(g.items, used, caps)
  {
    g, used, truncated := g0, used0, false;
    for i := 0 to 1 + |p.coalescedIds|
      invariant g == GatherAll(visits[..base + i], env)
      invariant Carried(g.items, used, caps)
    {
      var v := Visit(p, if i == 0 then p.deliveryId else Some(p.coalescedIds[i - 1]));
      VisitInSlice(p, visits, base, i);
      var next, used', cut := Visitar(v, env, g, used, caps);
      VisitDone(visits, base + i, env, g, next, cut, caps);
      if cut {
        return next, used', true;
      }
      g, used := next, used';
    }
  }

  /** The visits of the first messages are the first visits. */
  lemma VisitsUpTo(pendentes: seq<Pending>, k: nat)
    requires k <= |pendentes|
    ensures var base := |Visits(pendentes[..k])|;
            base <= |Visits(pendentes)| && Visits(pendentes)[..base] == Visits(pendentes[..k])
  {
    VisitsPrefix(pendentes, k);
  }

  /** Visits message `k`, all earlier ones being gathered. */
  method VisitarMensagem(pendentes: seq<Pending>, k: nat, env: Env, g0: Gathered, used0: nat, caps: Caps)
    returns (g: Gathered, used: nat, truncated: bool)
    requires k < |pendentes| && g0 == GatherAll(Visits(pendentes[..k]), env) && Carried(g0.items, used0, caps)
    ensures if truncated then IsSnapshot(g.items, true, g.omitted, Visits(pendentes), env, caps)
            else g == GatherAll(Visits(pendentes[..k + 1]), env) && Carried(g.items, used, caps)
  {
    ghost var visits, base := Visits(pendentes), |Visits(pendentes[..k])|;
    VisitsAt(pendentes, k);
    VisitsUpTo(pendentes, k);
    VisitsUpTo(pendentes, k + 1);
    g, used, truncated := VisitarPendente(pendentes[k], env, g0, used0, caps, visits, base);
  }

  /** Builds the snapshot, stopping at the first item beyond a cap. */
  method MontarSnapshot(pendentes: seq<Pending>, env: Env, caps: Caps)
    returns (items: seq<LiveItem>, truncated: bool, omitted: nat)
    ensures IsSnapshot(items, truncated, omitted, Visits(pendentes), env, caps)
    ensures exists all, shown, lost :: Shows(items, truncated, omitted, pendentes, env, caps, all, shown, lost)
  {
    ghost var shown, lost;
    var g, used := Gathered([], {}, 0, 0), 0;
    assert pendentes[..0] == [];
    for k := 0 to |pendentes|
      invariant g == GatherAll(Visits(pendentes[..k]), env)
      invariant Carried(g.items, used, caps)
    {
      g, used, truncated := VisitarMensagem(pendentes, k, env, g, used, caps);
      if truncated {
        shown, lost := SnapshotTold(g.items, true, g.omitted, pendentes, env, caps);
        return g.items, true, g.omitted;
      }
    }
    assert pendentes[..|pendentes|] == pendentes;
    NothingCut(Visits(pendentes), env, caps);
    shown, lost := SnapshotTold(g.items, false, g.omitted, pendentes, env, caps);
    return g.items, false, g.omitted;
  }

  lemma {:induction false} VisitsPrefix(pendentes: seq<Pending>, k: nat)
    requires k <= |pendentes|
    ensures Visits(pendentes[..k]) <= Visits(pendentes)
  {
    if k == |pendentes| {
      assert pendentes[..k] == pendentes;
    } else {
      assert pendentes[..|pendentes| - 1][..k] == pendentes[..k];
      VisitsPrefix(pendentes[..|pendentes| - 1], k);
    }
  }

  /** What the server receives: bounded, without repeated real ids, and sealed in a keyed project. */
  lemma SnapshotIsSafe(cut: seq<LiveItem>, pendentes: seq<Pending>, env: Env, caps: Caps)
    requires LongestFitting(cut, Uncapped(pendentes, env).items, caps)
    ensures Fits(cut, caps)
    ensures forall i, j :: 0 <= i < j < |cut| && cut[i].deliveryId == cut[j].deliveryId ==>
            cut[i].deliveryId == Delivery("")
    ensures SealedRecords(env) ==> forall i :: 0 <= i < |cut| ==> cut[i].content.E2e?
    ensures SealedAttachments(env) ==> forall i :: 0 <= i < |cut| ==> AllSealed(cut[i].images)
  {
    var all := Uncapped(pendentes, env).items;
    assert all[..|cut|] == cut;
    NoIdTwice(Visits(pendentes), env);
    EverythingSealed(Visits(pendentes), env);
  }
}
