/**
 * Project keys, their ring and what they open (src/daemon-crypto.ts), with ideal
 * authenticated encryption: a blob opens under the key and associated data it was
 * sealed with, and under nothing else (the interface of section 2 of RFC 5116).
 */
module KeyRing {
  import opened Common

  newtype byte = x: int | 0 <= x < 256

  type Key = seq<byte>

  const KEY_BYTES: nat := 32

  /** A plaintext. `KeyB64` is a text that base64-decodes to the given bytes. */
  datatype Plain = KeyB64(bytes: seq<byte>) | Text(text: string) | Letter(content: string, member: bool)

  /**
   * A stored value: not sealed at all; sealed without associated data (`e2e:`); the rejected
   * `e2e:v1:` format; sealed with associated data (`e2e:v2:`); or a blob that authenticates under no key.
   */
  datatype Blob =
    | Clear(plain: Plain)
    | V0(key: Key, plain: Plain)
    | V1
    | V2(key: Key, aad: string, plain: Plain)
    | Broken

  predicate IsE2eEncrypted(b: Blob) {
    !b.Clear?
  }

  function EncryptWithRawKey(plain: Plain, key: Key, aad: Option<string>): Option<Blob> {
    if |key| != KEY_BYTES then None
    else match aad
      case None => Some(V0(key, plain))
      case Some(a) => Some(V2(key, a, plain))
  }

  function DecryptWithRawKey(stored: Blob, key: Key, aad: Option<string>): Option<Plain> {
    if stored.V1? || |key| != KEY_BYTES then None
    else match stored
      case V2(k, a, plain) => if aad == None || aad == Some("") then None
                              else if k == key && aad == Some(a) then Some(plain) else None
      case Clear(plain) => Some(plain)
      case V0(k, plain) => if k == key then Some(plain) else None
      case _ => None
  }

  /** What RAM holds for one project: active key, older keys newest first, sealed entries oldest first. */
  datatype Ring = Ring(active: Option<Key>, older: seq<Key>, entries: seq<Blob>)

  const EMPTY_RING := Ring(None, [], [])

  function Keys(r: Ring): seq<Key> {
    (if r.active.Some? then [r.active.value] else []) + r.older
  }

  function EncryptForProject(r: Ring, plain: Plain, aad: Option<string>): Option<Blob> {
    if r.active.None? then None else EncryptWithRawKey(plain, r.active.value, aad)
  }

  /** The first key of the list that opens the blob. */
  function FirstOpening(keys: seq<Key>, stored: Blob, aad: Option<string>): Option<Plain> {
    if keys == [] then None
    else
      var p := DecryptWithRawKey(stored, keys[0], aad);
      if p.Some? then p else FirstOpening(keys[1..], stored, aad)
  }

  function DecryptForProject(r: Ring, stored: Blob, aad: Option<string>): Option<Plain> {
    if stored.V1? then None
    else if stored.Clear? then Some(stored.plain)
    else if stored.V2? && (aad == None || aad == Some("")) then None
    else if r.active.None? then None
    else FirstOpening([r.active.value] + r.older, stored, aad)
  }

  /** The backward walk of the ring: each entry opens under the key that followed it. */
  function Walk(active: Key, entries: seq<Blob>): seq<Key>
    decreases |entries|
  {
    if entries == [] then []
    else match DecryptWithRawKey(entries[|entries| - 1], active, None)
      case Some(KeyB64(bytes)) =>
        if |bytes| != KEY_BYTES then [] else [bytes] + Walk(bytes, entries[..|entries| - 1])
      case _ => []
  }

  /** The old active key becomes the newest entry, sealed under its successor. */
  function Promote(r: Ring, newKey: Key): Ring {
    if r.active.None? || r.active.value == newKey then r
    else match EncryptWithRawKey(KeyB64(r.active.value), newKey, None)
      case None => r
      case Some(entry) => Ring(r.active, [r.active.value] + r.older, r.entries + [entry])
  }

  /** The ring received from the server replaces whatever was held. */
  function Import(r: Ring, entries: seq<Blob>): Ring {
    if entries == [] || r.active.None? then r
    else
      var walked := Walk(r.active.value, entries);
      r.(older := walked, entries := if walked == [] then [] else entries)
  }

  /** A key wrapped for a daemon's private key. */
  datatype Wrap = Wrap(owner: int, raw: seq<byte>)

  /** What the key file stores for one project; an absent ring is the empty one. */
  datatype Persisted = Persisted(wrap: Wrap, keyRing: seq<Blob>)

  datatype Project = Project(ram: Ring, disk: Option<Persisted>)

  predicate Unwraps(wrap: Wrap, daemon: int) {
    wrap.owner == daemon && |wrap.raw| == KEY_BYTES
  }

  function RememberedRing(r: Ring, raw: Key, keyRing: seq<Blob>): Ring {
    Import(Promote(r, raw).(active := Some(raw)), keyRing)
  }

  /** `rememberProjectKey`; `writeOk` says whether the key file could be written. */
  function Remember(p: Project, wrap: Wrap, keyRing: seq<Blob>, daemon: int, writeOk: bool): Project {
    if !Unwraps(wrap, daemon) then p
    else
      var ram := RememberedRing(p.ram, wrap.raw, keyRing);
      Project(ram, if writeOk then Some(Persisted(wrap, ram.entries)) else p.disk)
  }

  function SealedOnly(entries: seq<Blob>): seq<Blob> {
    if entries == [] then []
    else
      var init := SealedOnly(entries[..|entries| - 1]);
      if IsE2eEncrypted(entries[|entries| - 1]) then init + [entries[|entries| - 1]] else init
  }

  /** What the key file yields in a process that holds nothing yet. */
  function Restored(disk: Option<Persisted>, daemon: int): Ring {
    if disk.None? || !Unwraps(disk.value.wrap, daemon) then EMPTY_RING
    else Import(Ring(Some(disk.value.wrap.raw), [], []), SealedOnly(disk.value.keyRing))
  }

  /** Any use of the key: RAM first, the key file otherwise. */
  function Use(p: Project, daemon: int): Project {
    if p.ram.active.Some? then p else p.(ram := Restored(p.disk, daemon))
  }

  ghost predicate AllSealed(entries: seq<Blob>) {
    forall e :: e in entries ==> IsE2eEncrypted(e)
  }

  /** The older keys in RAM are exactly the backward walk of the stored entries. */
  ghost predicate Consistent(r: Ring) {
    && (r.active.None? ==> r == EMPTY_RING)
    && (r.active.Some? ==> |r.active.value| == KEY_BYTES && r.older == Walk(r.active.value, r.entries))
    && (r.older == [] ==> r.entries == [])
  }

  /** What a restart rebuilds of a ring that was written: the entries that are not sealed are filtered out. */
  function Reloaded(r: Ring): Ring {
    Import(Ring(r.active, [], []), SealedOnly(r.entries))
  }

  /** The key file shows RAM. */
  ghost predicate Mirrored(p: Project, daemon: int) {
    Consistent(p.ram) && (p.ram.active.Some? ==> Restored(p.disk, daemon) == Reloaded(p.ram))
  }

  lemma {:induction false} SealedOnlyKeepsSealed(entries: seq<Blob>)
    ensures AllSealed(SealedOnly(entries))
    ensures AllSealed(entries) <==> SealedOnly(entries) == entries
  {
    if entries != [] {
      SealedOnlyKeepsSealed(entries[..|entries| - 1]);
      assert entries == entries[..|entries| - 1] + [entries[|entries| - 1]];
    }
  }

  /** What is filtered out is what is not sealed, and the order stays. */
  lemma {:induction false} SealedOnlyFilters(a: seq<Blob>, b: seq<Blob>)
    ensures SealedOnly(a + b) == SealedOnly(a) + SealedOnly(b)
    ensures forall e :: e in SealedOnly(b) <==> e in b && !e.Clear?
    ensures |b| == 1 && !b[0].Clear? ==> SealedOnly(b) == b
  {
    if b == [] {
      assert a + b == a;
    } else {
      var n := |b| - 1;
      assert (a + b)[..|a + b| - 1] == a + b[..n];
      SealedOnlyFilters(a, b[..n]);
      assert b == b[..n] + [b[n]];
    }
  }

  /** The entry hands over a whole key to whoever holds `key`: sealed under it, or in clear. */
  predicate HandsOver(entry: Blob, key: Key, older: Key) {
    |older| == 32 && (entry == V0(key, KeyB64(older)) || entry == Blob.Clear(KeyB64(older)))
  }

  ghost predicate HandsOverNothing(entry: Blob, key: Key) {
    forall k :: !HandsOver(entry, key, k)
  }

  /** The newest entry hands over the newest older key, and so on; where the keys end, an entry hands over none. */
  ghost predicate Chain(active: Key, entries: seq<Blob>, older: seq<Key>)
    decreases |older|
  {
    if older == [] then entries == [] || HandsOverNothing(entries[|entries| - 1], active)
    else
      && entries != [] && HandsOver(entries[|entries| - 1], active, older[0])
      && Chain(older[0], entries[..|entries| - 1], older[1..])
  }

  /** The backward walk is that chain. */
  lemma {:induction false} WalkIsChain(active: Key, entries: seq<Blob>)
    requires |active| == 32
    ensures Chain(active, entries, Walk(active, entries))
    decreases |entries|
  {
    if entries != [] {
      var last, older := entries[|entries| - 1], Walk(active, entries);
      if older != [] {
        WalkIsChain(older[0], entries[..|entries| - 1]);
        assert older[1..] == Walk(older[0], entries[..|entries| - 1]);
      } else {
        assert HandsOverNothing(last, active);
      }
    }
  }

  lemma {:induction false} ChainIsWhole(active: Key, entries: seq<Blob>, older: seq<Key>, k: Key)
    requires Chain(active, entries, older) && k in older
    ensures |k| == 32
    decreases |older|
  {
    if k != older[0] {
      ChainIsWhole(older[0], entries[..|entries| - 1], older[1..], k);
    }
  }

  /** Every key a ring holds is whole, and each older one is handed over by an entry of the ring. */
  lemma HeldKeysAreWhole(r: Ring)
    requires Consistent(r)
    ensures forall k :: k in Keys(r) ==> |k| == 32
    ensures r.active.Some? ==> Chain(r.active.value, r.entries, r.older)
  {
    if r.active.Some? {
      WalkIsChain(r.active.value, r.entries);
      forall k | k in Keys(r) ensures |k| == 32 {
        if k != r.active.value {
          ChainIsWhole(r.active.value, r.entries, r.older, k);
        }
      }
    }
  }

  /** A ring is rebuilt as it was exactly when all its entries are sealed; else, as far as the sealed ones reach. */
  lemma ReloadedExactIff(r: Ring)
    requires Consistent(r)
    ensures Reloaded(r) == r <==> AllSealed(r.entries)
    ensures r.active.Some? ==> Keys(Reloaded(r)) == [r.active.value] + Walk(r.active.value, SealedOnly(r.entries))
    ensures Consistent(Reloaded(r))
  {
    SealedOnlyKeepsSealed(r.entries);
  }

  /** Sealing the old key under the new one extends the walk by exactly that key. */
  lemma PromotionExtendsWalk(r: Ring, newKey: Key)
    requires Consistent(r) && |newKey| == KEY_BYTES
    ensures var q := Promote(r, newKey).(active := Some(newKey)); Consistent(q)
    ensures forall k :: k in Keys(r) ==> k in Keys(Promote(r, newKey).(active := Some(newKey)))
  {
    var q := Promote(r, newKey).(active := Some(newKey));
    if r.active.Some? && r.active.value != newKey {
      assert q.entries[..|q.entries| - 1] == r.entries;
    }
    forall k | k in Keys(r) ensures k in Keys(q) {
      if r.active.Some? && k != r.active.value {
        assert k in r.older && k in q.older;
      }
    }
  }

  lemma ImportConsistent(r: Ring, entries: seq<Blob>)
    requires Consistent(r)
    ensures Consistent(Import(r, entries))
  {
  }

  /** Remembering a key keeps RAM consistent, whatever ring the server sends and, once written, mirrored on disk. */
  lemma RememberMirrors(p: Project, wrap: Wrap, keyRing: seq<Blob>, daemon: int, writeOk: bool)
    requires Consistent(p.ram)
    ensures var q := Remember(p, wrap, keyRing, daemon, writeOk);
            Consistent(q.ram) &&
            (writeOk && Unwraps(wrap, daemon) ==> q.ram.active == Some(wrap.raw) && Mirrored(q, daemon))
  {
    if Unwraps(wrap, daemon) {
      PromotionExtendsWalk(p.ram, wrap.raw);
      ImportConsistent(Promote(p.ram, wrap.raw).(active := Some(wrap.raw)), keyRing);
    }
  }

  lemma RestoredConsistent(disk: Option<Persisted>, daemon: int)
    ensures Consistent(Restored(disk, daemon))
    ensures AllSealed(Restored(disk, daemon).entries)
  {
    if disk.Some? {
      SealedOnlyKeepsSealed(disk.value.keyRing);
    }
  }

  /**
   * A daemon's life with one project. `writeOk` says whether the key file could be written; `Restart` is a
   * process that dies and starts anew.
   */
  datatype Op = RememberKey(wrap: Wrap, keyRing: seq<Blob>, writeOk: bool) | UseKey | Restart

  function Step(p: Project, op: Op, daemon: int): Project {
    match op
    case RememberKey(wrap, keyRing, writeOk) => Remember(p, wrap, keyRing, daemon, writeOk)
    case UseKey => Use(p, daemon)
    case Restart => p.(ram := EMPTY_RING)
  }

  function Run(p: Project, ops: seq<Op>, daemon: int): Project {
    if ops == [] then p else Step(Run(p, ops[..|ops| - 1], daemon), ops[|ops| - 1], daemon)
  }

  predicate Writes(op: Op, daemon: int) {
    op.RememberKey? && Unwraps(op.wrap, daemon) && op.writeOk
  }

  /** The ring that a restart finds: the one last written, as it is rebuilt. */
  function LastWritten(p: Project, ops: seq<Op>, daemon: int): Ring {
    if ops == [] then Restored(p.disk, daemon)
    else if Writes(ops[|ops| - 1], daemon) then Reloaded(Run(p, ops, daemon).ram)
    else LastWritten(p, ops[..|ops| - 1], daemon)
  }

  lemma {:induction false} EveryLifeIsConsistent(p: Project, ops: seq<Op>, daemon: int)
    requires Consistent(p.ram)
    ensures Consistent(Run(p, ops, daemon).ram)
  {
    if ops != [] {
      var n := |ops| - 1;
      EveryLifeIsConsistent(p, ops[..n], daemon);
      var before := Run(p, ops[..n], daemon);
      RestoredConsistent(before.disk, daemon);
      match ops[n]
      case RememberKey(wrap, keyRing, writeOk) => RememberMirrors(before, wrap, keyRing, daemon, writeOk);
      case UseKey =>
      case Restart =>
    }
  }

  /** In every life, with any rings and any failed writes, a restart finds the ring that was written last. */
  lemma {:induction false} RestartFindsLastWritten(p: Project, ops: seq<Op>, daemon: int)
    requires Consistent(p.ram)
    ensures Use(Step(Run(p, ops, daemon), Restart, daemon), daemon).ram == LastWritten(p, ops, daemon)
  {
    if ops != [] {
      var n := |ops| - 1;
      var before := Run(p, ops[..n], daemon);
      RestartFindsLastWritten(p, ops[..n], daemon);
      EveryLifeIsConsistent(p, ops[..n], daemon);
      if Writes(ops[n], daemon) {
        RememberMirrors(before, ops[n].wrap, ops[n].keyRing, daemon, true);
      }
    }
  }

  ghost predicate AllWritten(ops: seq<Op>) {
    forall i :: 0 <= i < |ops| && ops[i].RememberKey? ==> ops[i].writeOk
  }

  /**
   * In every life whose writes succeed, restarting and using the key gives back what is in RAM: exactly, if
   * all its ring entries are sealed, and otherwise the keys that the sealed entries alone reach.
   */
  lemma {:induction false} EveryLifeIsMirrored(p: Project, ops: seq<Op>, daemon: int)
    requires Mirrored(p, daemon) && AllWritten(ops)
    ensures Mirrored(Run(p, ops, daemon), daemon)
    ensures var q := Run(p, ops, daemon);
            var found := Use(Step(q, Restart, daemon), daemon).ram;
            q.ram.active.Some? ==>
              found == Reloaded(q.ram) && (found == q.ram <==> AllSealed(q.ram.entries))
  {
    if ops != [] {
      var n := |ops| - 1;
      EveryLifeIsMirrored(p, ops[..n], daemon);
      var before := Run(p, ops[..n], daemon);
      RestoredConsistent(before.disk, daemon);
      match ops[n]
      case RememberKey(wrap, keyRing, writeOk) => RememberMirrors(before, wrap, keyRing, daemon, true);
      case UseKey => ReloadedExactIff(Restored(before.disk, daemon));
      case Restart =>
    }
    ReloadedExactIff(Run(p, ops, daemon).ram);
  }

  /* ---------- what stays readable ---------- */

  lemma {:induction false} FirstOpeningFinds(keys: seq<Key>, stored: Blob, aad: Option<string>)
    requires stored.V0? || stored.V2?
    ensures FirstOpening(keys, stored, aad) ==
            if stored.key in keys && DecryptWithRawKey(stored, stored.key, aad).Some? then Some(stored.plain) else None
  {
    if keys != [] {
      FirstOpeningFinds(keys[1..], stored, aad);
    }
  }

  /**
   * A sealed text opens exactly when its key is held and, if it was sealed with associated data,
   * the same non-empty data is given. Sealing with empty data produces a blob nobody can open.
   */
  lemma OpensExactly(r: Ring, key: Key, plain: Plain, sealAad: Option<string>, aad: Option<string>)
    requires Consistent(r) && |key| == KEY_BYTES
    ensures var stored := EncryptWithRawKey(plain, key, sealAad).value;
            DecryptForProject(r, stored, aad) ==
            if key in Keys(r) && (sealAad.None? || (sealAad == aad && aad != Some(""))) then Some(plain) else None
  {
    var stored := EncryptWithRawKey(plain, key, sealAad).value;
    FirstOpeningFinds(Keys(r), stored, aad);
  }

  /** What a use of the key would hold: RAM, or the key file after a restart. */
  function Held(p: Project, daemon: int): Ring {
    Use(p, daemon).ram
  }

  /**
   * Which rotations keep every key. Without a ring from the server: RAM is warm, or nothing but the new
   * key was held. With one, it replaces all older keys, so each held key must be the new one or in the
   * ring's own chain.
   */
  ghost predicate KeepsHistory(p: Project, raw: Key, keyRing: seq<Blob>, daemon: int) {
    if keyRing == [] then p.ram.active.Some? || forall k :: k in Keys(Held(p, daemon)) ==> k == raw
    else forall k :: k in Keys(Held(p, daemon)) ==> k == raw || k in Walk(raw, keyRing)
  }

  /** Every key held before is held after. */
  ghost predicate AllStillHeld(p: Project, q: Project, daemon: int) {
    forall k :: k in Keys(Held(p, daemon)) ==> k in Keys(Held(q, daemon))
  }

  lemma ImportedKeys(r: Ring, raw: Key, keyRing: seq<Blob>)
    requires keyRing != []
    ensures Keys(RememberedRing(r, raw, keyRing)) == [raw] + Walk(raw, keyRing)
  {
  }

  /**
   * A rotation keeps every held key exactly under that condition, whatever ring the server sends and whether
   * or not the key file can be written. A restart afterwards finds, if it was written, the ring as it is
   * rebuilt, which is all of it exactly when every entry is sealed; and if it was not, what the file had.
   */
  lemma RotationKeepsHistoryIff(p: Project, wrap: Wrap, keyRing: seq<Blob>, daemon: int, writeOk: bool)
    requires Consistent(p.ram) && Unwraps(wrap, daemon)
    ensures var q := Remember(p, wrap, keyRing, daemon, writeOk);
            var found := Held(Step(q, Restart, daemon), daemon);
            && (AllStillHeld(p, q, daemon) <==> KeepsHistory(p, wrap.raw, keyRing, daemon))
            && (writeOk ==> found == Reloaded(q.ram) && (found == q.ram <==> AllSealed(q.ram.entries)))
            && (!writeOk ==> found == Restored(p.disk, daemon))
  {
    var q := Remember(p, wrap, keyRing, daemon, writeOk);
    RememberMirrors(p, wrap, keyRing, daemon, writeOk);
    ReloadedExactIff(q.ram);
    if keyRing != [] {
      ImportedKeys(p.ram, wrap.raw, keyRing);
    } else if p.ram.active.Some? {
      PromotionExtendsWalk(p.ram, wrap.raw);
    } else {
      assert Keys(Held(q, daemon)) == [wrap.raw];
    }
  }

  /** A restart keeps every key: nothing is in RAM, or the ring last written, as it is rebuilt, has all that is. */
  ghost predicate RestartKeeps(p: Project, last: Ring) {
    p.ram.active.Some? ==> forall k :: k in Keys(p.ram) ==> k in Keys(last)
  }

  /** If RAM itself was written last: every older key is reached by the sealed entries alone. */
  lemma RestartKeepsIff(p: Project)
    requires Consistent(p.ram) && p.ram.active.Some?
    ensures RestartKeeps(p, Reloaded(p.ram)) <==>
            forall k :: k in p.ram.older ==>
              k == p.ram.active.value || k in Walk(p.ram.active.value, SealedOnly(p.ram.entries))
  {
    ReloadedExactIff(p.ram);
    if RestartKeeps(p, Reloaded(p.ram)) {
      forall k | k in p.ram.older
        ensures k == p.ram.active.value || k in Walk(p.ram.active.value, SealedOnly(p.ram.entries))
      {
        assert k in Keys(p.ram);
      }
    }
  }

  /** A ring that does not open wipes even the history of a warm RAM, and the file with it. */
  lemma UnopenableRingLosesHistory(k1: Key, k2: Key, daemon: int, text: string)
    requires |k1| == |k2| == KEY_BYTES && k1 != k2
    ensures var warm := Project(Ring(Some(k1), [], []), Some(Persisted(Wrap(daemon, k1), [])));
            var p := Remember(warm, Wrap(daemon, k2), [Broken], daemon, true);
            Mirrored(warm, daemon) && DecryptForProject(Held(warm, daemon), V0(k1, Text(text)), None) ==
              Some(Text(text)) &&
            DecryptForProject(Held(p, daemon), V0(k1, Text(text)), None) == None &&
            DecryptForProject(Held(Step(p, Restart, daemon), daemon), V0(k1, Text(text)), None) == None
  {
    var warm := Project(Ring(Some(k1), [], []), Some(Persisted(Wrap(daemon, k1), [])));
    var p := Remember(warm, Wrap(daemon, k2), [Broken], daemon, true);
    assert Keys(warm.ram) == [k1];
    assert p.ram == Ring(Some(k2), [], []) && Restored(p.disk, daemon) == p.ram;
    FirstOpeningFinds([k1], V0(k1, Text(text)), None);
    FirstOpeningFinds([k2], V0(k1, Text(text)), None);
  }

  /** The failing family is real: key, restart, rotation; the first key is gone. */
  lemma ColdRotationLosesHistory(k1: Key, k2: Key, daemon: int, text: string)
    requires |k1| == |k2| == KEY_BYTES && k1 != k2
    ensures var p := Run(Project(EMPTY_RING, None),
            [RememberKey(Wrap(daemon, k1), [], true), Restart, RememberKey(Wrap(daemon, k2), [], true)], daemon);
            DecryptForProject(Held(p, daemon), V0(k1, Text(text)), None) == None
  {
    var ops := [RememberKey(Wrap(daemon, k1), [], true), Restart, RememberKey(Wrap(daemon, k2), [], true)];
    var p0 := Project(EMPTY_RING, None);
    assert ops[..2][..1] == ops[..1] && ops[..1][..0] == [];
    assert Run(p0, [], daemon) == p0;
    var p1 := Run(p0, ops[..1], daemon);
    assert p1 == Step(p0, ops[0], daemon);
    var p2 := Run(p0, ops[..2], daemon);
    assert p2 == Step(p1, Restart, daemon);
    var p3 := Run(p0, ops, daemon);
    assert p3 == Step(p2, ops[2], daemon);
    assert Keys(Held(p3, daemon)) == [k2];
    FirstOpeningFinds([k2], V0(k1, Text(text)), None);
  }

  /**
   * An entry of the server's ring that is not sealed carries its key into RAM, and the filter on the key file
   * drops it: the rotation keeps the first key, and the next restart loses it.
   */
  lemma ClearEntryLosesHistory(k1: Key, k2: Key, daemon: int)
    requires |k1| == |k2| == KEY_BYTES && k1 != k2
    ensures var warm := Project(Ring(Some(k1), [], []), Some(Persisted(Wrap(daemon, k1), [])));
            var p := Remember(warm, Wrap(daemon, k2), [Clear(KeyB64(k1))], daemon, true);
            Mirrored(warm, daemon) && KeepsHistory(warm, k2, [Clear(KeyB64(k1))], daemon) &&
            k1 in Keys(Held(p, daemon)) && k1 !in Keys(Held(Step(p, Restart, daemon), daemon))
  {
    var warm := Project(Ring(Some(k1), [], []), Some(Persisted(Wrap(daemon, k1), [])));
    var entries := [Clear(KeyB64(k1))];
    assert entries[..|entries| - 1] == [];
    assert Walk(k1, []) == [] && SealedOnly([]) == [];
    assert Walk(k2, entries) == [k1];
    assert SealedOnly(entries) == [];
    assert Keys(warm.ram) == [k1];
  }

  /* ---------- whole lives ---------- */

  /** Every key that was ever the active one during the run. */
  ghost predicate WasActive(p: Project, ops: seq<Op>, k: Key, daemon: int) {
    exists n :: 0 <= n <= |ops| && Run(p, ops[..n], daemon).ram.active == Some(k)
  }

  /** The step keeps every key: a rotation by its ring, a restart by what was written last. */
  ghost predicate Keeping(p: Project, last: Ring, op: Op, daemon: int) {
    match op
    case RememberKey(wrap, keyRing, _) => Unwraps(wrap, daemon) ==> KeepsHistory(p, wrap.raw, keyRing, daemon)
    case UseKey => true
    case Restart => RestartKeeps(p, last)
  }

  /** So does every step of the life. */
  ghost predicate KeepingLife(p: Project, ops: seq<Op>, daemon: int) {
    forall n :: 0 <= n < |ops| ==>
      Keeping(Run(p, ops[..n], daemon), LastWritten(p, ops[..n], daemon), ops[n], daemon)
  }

  /** Whatever is held at some point of the life is held at every later one. */
  ghost predicate NothingForgotten(p: Project, ops: seq<Op>, daemon: int) {
    forall m, n :: 0 <= m <= n <= |ops| ==> AllStillHeld(Run(p, ops[..m], daemon), Run(p, ops[..n], daemon), daemon)
  }

  lemma StepKeepsIff(p: Project, last: Ring, op: Op, daemon: int)
    requires Consistent(p.ram) && last == Restored(p.disk, daemon)
    ensures AllStillHeld(p, Step(p, op, daemon), daemon) <==> Keeping(p, last, op, daemon)
  {
    match op
    case RememberKey(wrap, keyRing, writeOk) =>
      if Unwraps(wrap, daemon) {
        RotationKeepsHistoryIff(p, wrap, keyRing, daemon, writeOk);
      }
    case UseKey =>
      assert Held(Use(p, daemon), daemon) == Held(p, daemon);
    case Restart =>
      assert Held(p.(ram := EMPTY_RING), daemon) == last;
  }

  lemma LifeStep(p: Project, ops: seq<Op>, n: nat, daemon: int)
    requires Consistent(p.ram) && n < |ops|
    ensures Run(p, ops[..n + 1], daemon) == Step(Run(p, ops[..n], daemon), ops[n], daemon)
    ensures AllStillHeld(Run(p, ops[..n], daemon), Run(p, ops[..n + 1], daemon), daemon) <==>
            Keeping(Run(p, ops[..n], daemon), LastWritten(p, ops[..n], daemon), ops[n], daemon)
  {
    assert ops[..n + 1][..n] == ops[..n];
    EveryLifeIsConsistent(p, ops[..n], daemon);
    RestartFindsLastWritten(p, ops[..n], daemon);
    StepKeepsIff(Run(p, ops[..n], daemon), LastWritten(p, ops[..n], daemon), ops[n], daemon);
  }

  /** Through any number of keeping steps, a key held after `m` steps is held after `n`. */
  lemma {:induction false} HeldKeysStayHeld(p: Project, ops: seq<Op>, m: nat, n: nat, daemon: int)
    requires Consistent(p.ram) && KeepingLife(p, ops, daemon) && m <= n <= |ops|
    ensures AllStillHeld(Run(p, ops[..m], daemon), Run(p, ops[..n], daemon), daemon)
    decreases n
  {
    if m < n {
      HeldKeysStayHeld(p, ops, m, n - 1, daemon);
      LifeStep(p, ops, n - 1, daemon);
      StillHeldThen(Run(p, ops[..m], daemon), Run(p, ops[..n - 1], daemon), Run(p, ops[..n], daemon), daemon);
    }
  }

  lemma StillHeldThen(p: Project, q: Project, r: Project, daemon: int)
    requires AllStillHeld(p, q, daemon) && AllStillHeld(q, r, daemon)
    ensures AllStillHeld(p, r, daemon)
  {
  }

  /** Over a whole life, with any rings and any failed writes, no key is ever lost iff every step keeps all. */
  lemma NothingForgottenIff(p: Project, ops: seq<Op>, daemon: int)
    requires Consistent(p.ram)
    ensures NothingForgotten(p, ops, daemon) <==> KeepingLife(p, ops, daemon)
  {
    if KeepingLife(p, ops, daemon) {
      forall m, n | 0 <= m <= n <= |ops|
        ensures AllStillHeld(Run(p, ops[..m], daemon), Run(p, ops[..n], daemon), daemon)
      {
        HeldKeysStayHeld(p, ops, m, n, daemon);
      }
    }
    if NothingForgotten(p, ops, daemon) {
      forall n | 0 <= n < |ops|
        ensures Keeping(Run(p, ops[..n], daemon), LastWritten(p, ops[..n], daemon), ops[n], daemon)
      {
        LifeStep(p, ops, n, daemon);
        assert AllStillHeld(Run(p, ops[..n], daemon), Run(p, ops[..n + 1], daemon), daemon);
      }
    }
  }

  /**
   * History stays readable: after keeping steps, a text sealed under any formerly active key, with no
   * associated data or with non-empty data, opens to itself under the same data; sealed with data, it opens to
   * nothing under other data, and sealed without, it opens whatever data is given.
   */
  lemma HistoryStaysReadable(p: Project, ops: seq<Op>, k: Key, plain: Plain, aad: Option<string>, other: Option<string>,
                             daemon: int)
    requires Consistent(p.ram) && KeepingLife(p, ops, daemon)
    requires WasActive(p, ops, k, daemon) && |k| == KEY_BYTES && aad != Some("")
    ensures var stored := EncryptWithRawKey(plain, k, aad).value;
            var held := Held(Run(p, ops, daemon), daemon);
            DecryptForProject(held, stored, aad) == Some(plain) &&
            DecryptForProject(held, stored, other) == if aad.None? || other == aad then Some(plain) else None
  {
    var q := Run(p, ops, daemon);
    var m :| 0 <= m <= |ops| && Run(p, ops[..m], daemon).ram.active == Some(k);
    assert ops[..|ops|] == ops;
    HeldKeysStayHeld(p, ops, m, |ops|, daemon);
    assert k in Keys(Held(Run(p, ops[..m], daemon), daemon));
    EveryLifeIsConsistent(p, ops, daemon);
    RestoredConsistent(q.disk, daemon);
    OpensExactly(Held(q, daemon), k, plain, aad, aad);
    OpensExactly(Held(q, daemon), k, plain, aad, other);
  }
}
