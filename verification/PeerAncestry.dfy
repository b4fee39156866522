/**
 * Which agent a local peer belongs to (src/privileges.ts, src/bridge-relay.ts): the nearest
 * registered ancestor of its process. The relay answers from a per-connection cache of facts read
 * from the operating system, where any read may fail.
 */
module PeerAncestry {
  import opened Common

  const AGENT_PID_WALK_MAX: nat := 10
  const PEER_OS_WALK_MAX: nat := 10
  const PEER_RESOLVE_ATTEMPTS: nat := 3

  /** Parents by pid; what is missing reads as 0. */
  type Parents = map<nat, nat>

  /** Agents by pid. */
  type Registry = map<nat, string>

  function Up(parents: Parents, pid: nat): nat {
    if pid in parents then parents[pid] else 0
  }

  /** The k-th ancestor; the process itself is the 0-th. */
  function Ancestor(parents: Parents, pid: nat, k: nat): nat {
    if k == 0 then pid else Up(parents, Ancestor(parents, pid, k - 1))
  }

  /** The first `k` steps go through real processes above pid 1. */
  ghost predicate Climbs(parents: Parents, pid: nat, k: nat) {
    forall j :: 0 <= j <= k ==> Ancestor(parents, pid, j) > 1
  }

  /** The k-th ancestor is the nearest registered one, among the process and nine above it. */
  ghost predicate Nearest(parents: Parents, registry: Registry, pid: nat, k: nat) {
    && k < 10 && Climbs(parents, pid, k)
    && Ancestor(parents, pid, k) in registry
    && forall j :: 0 <= j < k ==> Ancestor(parents, pid, j) !in registry
  }

  /** `r` is the answer: the agent of the nearest registered ancestor, or nobody when there is none. */
  ghost predicate Answers(parents: Parents, registry: Registry, pid: nat, r: Option<string>) {
    match r
    case Some(id) => exists k: nat :: Nearest(parents, registry, pid, k) && registry[Ancestor(parents, pid, k)] == id
    case None => forall k: nat :: !Nearest(parents, registry, pid, k)
  }

  lemma AnswerIsUnique(parents: Parents, registry: Registry, pid: nat, r: Option<string>, s: Option<string>)
    requires Answers(parents, registry, pid, r) && Answers(parents, registry, pid, s)
    ensures r == s
  {
    if r.Some? && s.Some? {
      var i: nat :| Nearest(parents, registry, pid, i) && registry[Ancestor(parents, pid, i)] == r.value;
      var j: nat :| Nearest(parents, registry, pid, j) && registry[Ancestor(parents, pid, j)] == s.value;
      assert i == j;
    }
  }

  /* ---------- cycles ---------- */

  /** The processes met in the first `n` steps. */
  function Met(parents: Parents, pid: nat, n: nat): set<nat> {
    if n == 0 then {} else Met(parents, pid, n - 1) + {Ancestor(parents, pid, n - 1)}
  }

  lemma {:induction false} MetAt(parents: Parents, pid: nat, n: nat, x: nat) returns (j: nat)
    requires x in Met(parents, pid, n)
    ensures j < n && Ancestor(parents, pid, j) == x
  {
    if Ancestor(parents, pid, n - 1) == x {
      j := n - 1;
    } else {
      j := MetAt(parents, pid, n - 1, x);
    }
  }

  lemma {:induction false} StepIsMet(parents: Parents, pid: nat, n: nat, j: nat)
    requires j < n
    ensures Ancestor(parents, pid, j) in Met(parents, pid, n)
  {
    if j < n - 1 {
      StepIsMet(parents, pid, n - 1, j);
    }
  }

  /** Once a process is met again, no new one is ever met. */
  lemma {:induction false} NothingNewAfterCycle(parents: Parents, pid: nat, n: nat, k: nat)
    requires Ancestor(parents, pid, n) in Met(parents, pid, n) && n <= k
    ensures Ancestor(parents, pid, k) in Met(parents, pid, n)
  {
    if k > n {
      NothingNewAfterCycle(parents, pid, n, k - 1);
      var j := MetAt(parents, pid, n, Ancestor(parents, pid, k - 1));
      assert Ancestor(parents, pid, j + 1) == Ancestor(parents, pid, k);
      if j + 1 < n {
        StepIsMet(parents, pid, n, j + 1);
      }
    }
  }

  /* ---------- the direct walk ---------- */

  /** Nobody registered among the first `n`, which all are real processes. */
  ghost predicate NobodyBelow(parents: Parents, registry: Registry, pid: nat, n: nat) {
    forall j :: 0 <= j < n ==> Ancestor(parents, pid, j) > 1 && Ancestor(parents, pid, j) !in registry
  }

  lemma StopsHere(parents: Parents, registry: Registry, pid: nat, n: nat)
    requires NobodyBelow(parents, registry, pid, n) && Ancestor(parents, pid, n) <= 1
    ensures Answers(parents, registry, pid, None)
  {
    forall k: nat ensures !Nearest(parents, registry, pid, k) {
      if Climbs(parents, pid, k) {
        assert !(n <= k);
      }
    }
  }

  /** A cycle without a registered process has no answer: giving up there loses nothing. */
  lemma CycleHasNobody(parents: Parents, registry: Registry, pid: nat, n: nat)
    requires NobodyBelow(parents, registry, pid, n) && Ancestor(parents, pid, n) in Met(parents, pid, n)
    ensures Answers(parents, registry, pid, None)
  {
    forall k: nat ensures !Nearest(parents, registry, pid, k) {
      if k >= n {
        NothingNewAfterCycle(parents, pid, n, k);
        var j := MetAt(parents, pid, n, Ancestor(parents, pid, k));
      } else {
        assert Ancestor(parents, pid, k) !in registry;
      }
    }
  }

  /** `resolveAgentIdFromPid`. */
  method ResolveAgentIdFromPid(parents: Parents, registry: Registry, pid: nat) returns (r: Option<string>)
    ensures Answers(parents, registry, pid, r)
  {
    var current := pid;
    var seen := {};
    for i := 0 to AGENT_PID_WALK_MAX
      invariant current == Ancestor(parents, pid, i) && seen == Met(parents, pid, i)
      invariant NobodyBelow(parents, registry, pid, i)
    {
      if current <= 1 {
        StopsHere(parents, registry, pid, i);
        return None;
      }
      if current in seen {
        CycleHasNobody(parents, registry, pid, i);
        return None;
      }
      seen := seen + {current};
      if current in registry {
        assert Nearest(parents, registry, pid, i);
        return Some(registry[current]);
      }
      current := Up(parents, current);
    }
    return None;
  }

  /* ---------- what a cache of true facts can answer ---------- */

  /** Every cached parent is the real one. */
  ghost predicate TrueFacts(cache: Parents, table: Parents) {
    forall p :: p in cache ==> cache[p] > 0 && p in table && table[p] == cache[p]
  }

  /** Every step of the real climb is cached, as far as the walk reaches. */
  ghost predicate Complete(cache: Parents, table: Parents, pid: nat) {
    forall k :: 0 <= k < AGENT_PID_WALK_MAX && Climbs(table, pid, k) ==>
      Ancestor(table, pid, k) in cache || Up(table, Ancestor(table, pid, k)) == 0
  }

  lemma {:induction false} CacheFollowsTable(cache: Parents, table: Parents, pid: nat, k: nat)
    requires TrueFacts(cache, table)
    ensures Climbs(cache, pid, k) ==> Climbs(table, pid, k) && Ancestor(cache, pid, k) == Ancestor(table, pid, k)
  {
    if Climbs(cache, pid, k) {
      if k > 0 {
        assert Climbs(cache, pid, k - 1);
        CacheFollowsTable(cache, table, pid, k - 1);
      }
      forall j | 0 <= j <= k ensures Ancestor(table, pid, j) > 1 {
        if j < k {
          assert Climbs(table, pid, k - 1);
        }
      }
    }
  }

  lemma {:induction false} TableFollowsCache(cache: Parents, table: Parents, pid: nat, k: nat)
    requires TrueFacts(cache, table) && Complete(cache, table, pid) && k < AGENT_PID_WALK_MAX
    ensures Climbs(table, pid, k) ==> Climbs(cache, pid, k)
  {
    if Climbs(table, pid, k) {
      if k > 0 {
        assert Climbs(table, pid, k - 1);
        TableFollowsCache(cache, table, pid, k - 1);
        CacheFollowsTable(cache, table, pid, k - 1);
      }
      forall j | 0 <= j <= k ensures Ancestor(cache, pid, j) > 1 {
        if j < k {
          assert Climbs(cache, pid, k - 1);
        }
      }
    }
  }

  lemma NearestIsCached(cache: Parents, table: Parents, registry: Registry, pid: nat, k: nat)
    requires TrueFacts(cache, table) && Complete(cache, table, pid) && Nearest(table, registry, pid, k)
    ensures Nearest(cache, registry, pid, k)
  {
    TableFollowsCache(cache, table, pid, k);
    SameClimb(cache, table, pid, k);
  }

  /** A cache of true facts never names the wrong agent; a complete one names the right one. */
  lemma CacheAnswersForTable(cache: Parents, table: Parents, registry: Registry, pid: nat, r: Option<string>)
    requires TrueFacts(cache, table) && Answers(cache, registry, pid, r)
    ensures r.Some? ==> Answers(table, registry, pid, r)
    ensures Complete(cache, table, pid) ==> Answers(table, registry, pid, r)
  {
    forall k: nat | Nearest(cache, registry, pid, k)
      ensures Nearest(table, registry, pid, k) && Ancestor(table, pid, k) == Ancestor(cache, pid, k)
    {
      SameClimb(cache, table, pid, k);
    }
    if r.None? && Complete(cache, table, pid) {
      forall k: nat ensures !Nearest(table, registry, pid, k) {
        if Nearest(table, registry, pid, k) {
          NearestIsCached(cache, table, registry, pid, k);
        }
      }
    }
  }

  lemma SameClimb(cache: Parents, table: Parents, pid: nat, k: nat)
    requires TrueFacts(cache, table) && Climbs(cache, pid, k)
    ensures Climbs(table, pid, k) && forall j :: 0 <= j <= k ==> Ancestor(cache, pid, j) == Ancestor(table, pid, j)
  {
    CacheFollowsTable(cache, table, pid, k);
    forall j | 0 <= j <= k ensures Ancestor(cache, pid, j) == Ancestor(table, pid, j) {
      assert Climbs(cache, pid, j);
      CacheFollowsTable(cache, table, pid, j);
    }
  }

  /* ---------- the relay ---------- */

  /** What a connection has learnt from the system; every fact may still be missing. */
  class PeerConnection {
    /** The system as it is: the peer, everybody's parent, and which reads succeed. */
    const peer: nat
    const table: Parents
    const readOk: nat -> bool

    var peerPid: Option<nat>
    var parentByPid: Parents
    var walked: bool
    /** How many reads were made so far. */
    var made: nat

    ghost predicate Valid()
      reads this
    {
      && (peerPid.Some? ==> peerPid.value == peer)
      && TrueFacts(parentByPid, table)
      && (walked ==> peerPid.Some? && Complete(parentByPid, table, peer))
    }

    constructor (peer: nat, table: Parents, readOk: nat -> bool)
      ensures Valid() && this.peer == peer && this.table == table && this.readOk == readOk && peerPid == None && !walked
    {
      this.peer, this.table, this.readOk := peer, table, readOk;
      peerPid, parentByPid, walked, made := None, map[], false, 0;
    }

    /** How many of the reads numbered from `from` to `to` failed. */
    ghost function Failures(from: nat, to: nat): nat
    {
      if to <= from then 0 else Failures(from, to - 1) + if readOk(to - 1) then 0 else 1
    }

    lemma {:induction false} FailuresAdd(from: nat, mid: nat, to: nat)
      requires from <= mid <= to
      ensures Failures(from, to) == Failures(from, mid) + Failures(mid, to)
    {
      if mid < to {
        FailuresAdd(from, mid, to - 1);
      }
    }

    /** `getUnixPeerPidAsync`. */
    method ReadPeerPid() returns (pid: Option<nat>)
      requires Valid()
      modifies this`made
      ensures Valid() && made == old(made) + 1
      ensures pid == if readOk(old(made)) && peer > 0 then Some(peer) else None
    {
      pid := if readOk(made) && peer > 0 then Some(peer) else None;
      made := made + 1;
    }

    /** `getParentPidAsync`. */
    method ReadParent(pid: nat) returns (ppid: Option<nat>)
      requires Valid()
      modifies this`made
      ensures Valid() && made == old(made) + 1
      ensures ppid == if readOk(old(made)) && Up(table, pid) > 0 then Some(Up(table, pid)) else None
    {
      ppid := if readOk(made) && Up(table, pid) > 0 then Some(Up(table, pid)) else None;
      made := made + 1;
    }

    /** The first `n` steps of the real climb are cached. */
    ghost predicate CachedUpTo(n: nat)
      reads this
    {
      forall j :: 0 <= j < n ==> Ancestor(table, peer, j) in parentByPid
    }

    lemma CycleIsComplete(n: nat)
      requires CachedUpTo(n) && Ancestor(table, peer, n) in Met(table, peer, n)
      ensures Complete(parentByPid, table, peer)
    {
      forall k | 0 <= k < AGENT_PID_WALK_MAX && Climbs(table, peer, k) ensures Ancestor(table, peer, k) in parentByPid {
        if k >= n {
          NothingNewAfterCycle(table, peer, n, k);
          var j := MetAt(table, peer, n, Ancestor(table, peer, k));
        }
      }
    }

    /** The climb ends here: below pid 1, or at a process whose parent nobody knows. */
    lemma EndIsComplete(n: nat)
      requires CachedUpTo(n) && (Ancestor(table, peer, n) <= 1 || Up(table, Ancestor(table, peer, n)) == 0)
      ensures Complete(parentByPid, table, peer)
    {
      forall k | 0 <= k < AGENT_PID_WALK_MAX && Climbs(table, peer, k)
        ensures Ancestor(table, peer, k) in parentByPid || Up(table, Ancestor(table, peer, k)) == 0
      {
        assert Ancestor(table, peer, n + 1) == Up(table, Ancestor(table, peer, n));
        assert !(k > n);
      }
    }

    /** `walkParents`: true only if the chain ended for a legitimate reason; a failed hop is not kept. */
    method WalkParents() returns (done: bool)
      requires Valid() && peerPid.Some? && !walked
      modifies this`made, this`parentByPid
      ensures Valid() && made >= old(made)
      ensures done ==> Complete(parentByPid, table, peer)
      ensures Complete(parentByPid, table, peer) || Failures(old(made), made) >= 1
      ensures made <= old(made) + 10
    {
      var current := peer;
      var seen := {};
      for i := 0 to PEER_OS_WALK_MAX
        invariant Valid() && old(made) <= made <= old(made) + i
        invariant current == Ancestor(table, peer, i) && seen == Met(table, peer, i)
        invariant CachedUpTo(i)
      {
        if current <= 1 {
          EndIsComplete(i);
          return true;
        }
        if current in seen {
          CycleIsComplete(i);
          return true;
        }
        seen := seen + {current};
        var ppid := ReadParent(current);
        if ppid.None? {
          ForgetHop(current, i);
          if Up(table, current) == 0 {
            EndIsComplete(i);
          }
          return false;
        }
        parentByPid := parentByPid[current := ppid.value];
        current := ppid.value;
      }
      return true;
    }

    /** The hop that could not be read leaves the cache. */
    method ForgetHop(current: nat, ghost n: nat)
      requires Valid() && !walked && CachedUpTo(n) && current == Ancestor(table, peer, n) &&
               current !in Met(table, peer, n)
      modifies this`parentByPid
      ensures Valid() && CachedUpTo(n)
    {
      parentByPid := parentByPid - {current};
      forall j | 0 <= j < n ensures Ancestor(table, peer, j) in parentByPid {
        StepIsMet(table, peer, n, j);
      }
    }

    /** `resolvePeerAgentIdOnce`. */
    method ResolveOnce(registry: Registry) returns (id: Option<string>)
      requires Valid()
      modifies this
      ensures Valid() && made >= old(made)
      ensures id.Some? ==> Answers(table, registry, peer, id)
      ensures peerPid.Some? && walked ==> Answers(table, registry, peer, id)
      ensures peer > 0 ==> Answers(table, registry, peer, id) || Failures(old(made), made) >= 1
      ensures made <= old(made) + 11
      ensures old(walked) ==> walked && made == old(made)
    {
      if peerPid.None? {
        peerPid := ReadPeerPid();
      }
      if peerPid.None? {
        return None;
      }
      ghost var read := made;
      if !walked {
        walked := WalkParents();
      }
      FailuresAdd(old(made), read, made);
      id := ResolveAgentIdFromPid(parentByPid, registry, peerPid.value);
      CacheAnswersForTable(parentByPid, table, registry, peer, id);
    }

    /**
     * `resolvePeerAgentIdSerial`, one request: the answer is nobody or the right agent; it is the right
     * one whenever the walk went through, and whenever at most two of the reads it made failed; a failed
     * read is never what later requests are answered from. No request makes more than 33 reads.
     */
    method Resolve(registry: Registry) returns (id: Option<string>)
      requires Valid()
      modifies this
      ensures Valid()
      ensures id.Some? ==> Answers(table, registry, peer, id)
      ensures walked ==> Answers(table, registry, peer, id)
      ensures old(made) <= made <= old(made) + 33
      ensures peer > 0 && Failures(old(made), made) <= 2 ==> Answers(table, registry, peer, id)
      ensures old(walked) ==> walked && made == old(made)
    {
      for attempt := 0 to PEER_RESOLVE_ATTEMPTS
        invariant Valid() && old(made) <= made <= old(made) + 11 * attempt
        invariant old(walked) ==> attempt == 0 && walked && made == old(made)
        invariant attempt > 0 ==> !walked
        invariant peer > 0 && !(attempt > 0 && Answers(table, registry, peer, None)) ==>
                    Failures(old(made), made) >= attempt
      {
        ghost var read := made;
        id := ResolveOnce(registry);
        FailuresAdd(old(made), read, made);
        if id.Some? {
          return;
        }
        if peerPid.Some? && walked {
          return None;
        }
        walked := false;
      }
      return None;
    }

    /** A whole connection: however reads fail and registries change, no request gets a wrong agent. */
    method Serve(registries: seq<Registry>) returns (ids: seq<Option<string>>)
      requires Valid()
      modifies this
      ensures Valid() && |ids| == |registries|
      ensures forall i :: 0 <= i < |ids| && ids[i].Some? ==> Answers(table, registries[i], peer, ids[i])
      ensures old(walked) ==> forall i :: 0 <= i < |ids| ==> Answers(table, registries[i], peer, ids[i])
    {
      ids := [];
      for i := 0 to |registries|
        invariant Valid() && |ids| == i && (old(walked) ==> walked)
        invariant forall k :: 0 <= k < i && ids[k].Some? ==> Answers(table, registries[k], peer, ids[k])
        invariant old(walked) ==> forall k :: 0 <= k < i ==> Answers(table, registries[k], peer, ids[k])
      {
        var id := Resolve(registries[i]);
        ids := ids + [id];
      }
    }
  }
}
