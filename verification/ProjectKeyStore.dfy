/**
 * The key maps of src/daemon-crypto.ts with their buffers: keys live in byte arrays that
 * rotation, ring import and forgetting zero in place, so which arrays are shared matters.
 */
module ProjectKeyStore {
  import opened Common
  import opened KeyRing

  /** The values in a list of buffers. */
  ghost function Values(buffers: seq<array<byte>>): (r: seq<Key>)
    reads buffers
    ensures |r| == |buffers|
    ensures forall i :: 0 <= i < |buffers| ==> r[i] == buffers[i][..]
  {
    seq(|buffers|, i requires 0 <= i < |buffers| reads buffers => buffers[i][..])
  }

  twostate lemma SameValues(buffers: seq<array<byte>>)
    requires forall i :: 0 <= i < |buffers| ==> buffers[i][..] == old(buffers[i][..])
    ensures Values(buffers) == old(Values(buffers))
  {
  }

  method NewBuffer(bytes: seq<byte>) returns (b: array<byte>)
    ensures fresh(b) && b[..] == bytes
  {
    b := new byte[|bytes|](i requires 0 <= i < |bytes| => bytes[i]);
  }

  /** `fill(0)`. */
  method Zero(b: array<byte>)
    modifies b
    ensures forall i :: 0 <= i < b.Length ==> b[i] == 0
  {
    for i := 0 to b.Length
      invariant forall j :: 0 <= j < i ==> b[j] == 0
    {
      b[i] := 0;
    }
  }

  method ZeroAll(buffers: seq<array<byte>>)
    modifies buffers
  {
    for i := 0 to |buffers| {
      Zero(buffers[i]);
    }
  }

  type Places = map<array<byte>, (string, nat)>

  ghost predicate PlacedAt(places: Places, b: array<byte>, pid: string, rank: nat) {
    b in places && places[b] == (pid, rank)
  }

  /** Gives the older keys of a project their ranks. */
  ghost function WithPlaces(places: Places, pid: string, older: seq<array<byte>>): (r: Places)
    requires forall i, j :: 0 <= i < j < |older| ==> older[i] != older[j]
    ensures forall i :: 0 <= i < |older| ==> PlacedAt(r, older[i], pid, |older| - i)
    ensures forall b :: b in places && b !in older ==> b in r && r[b] == places[b]
  {
    if older == [] then places
    else WithPlaces(places, pid, older[1..])[older[0] := (pid, |older|)]
  }

  /** Every stored buffer is a key and has exactly one place: active keys rank 0, older keys by age. */
  ghost predicate WellPlaced(active: map<string, array<byte>>, older: map<string, seq<array<byte>>>, places: Places) {
    && (forall p :: p in active ==> active[p].Length == KEY_BYTES && PlacedAt(places, active[p], p, 0))
    && (forall p, i :: p in older && 0 <= i < |older[p]| ==>
          older[p][i].Length == KEY_BYTES && PlacedAt(places, older[p][i], p, |older[p]| - i))
  }

  function Get<V>(m: map<string, seq<V>>, pid: string): seq<V> {
    if pid in m then m[pid] else []
  }

  lemma PushKeepsPlaces(active: map<string, array<byte>>, older: map<string, seq<array<byte>>>, places: Places,
                        pid: string, b: array<byte>)
    requires WellPlaced(active, older, places) && b !in places && b.Length == KEY_BYTES
    ensures var bs := [b] + Get(older, pid); WellPlaced(active, older[pid := bs], places[b := (pid, |bs|)])
  {
    var bs := [b] + Get(older, pid);
    var older': map<string, seq<array<byte>>> := older[pid := bs];
    var places' := places[b := (pid, |bs|)];
    forall p, i | p in older' && 0 <= i < |older'[p]|
      ensures older'[p][i].Length == KEY_BYTES && PlacedAt(places', older'[p][i], p, |older'[p]| - i)
    {
      if p == pid && i > 0 {
        assert older'[p][i] == older[p][i - 1];
      }
    }
  }

  lemma InstallKeepsPlaces(active: map<string, array<byte>>, older: map<string, seq<array<byte>>>, places: Places,
                           pid: string, bs: seq<array<byte>>)
    requires WellPlaced(active, older, places)
    requires forall i :: 0 <= i < |bs| ==> bs[i].Length == KEY_BYTES && bs[i] !in places
    requires forall i, j :: 0 <= i < j < |bs| ==> bs[i] != bs[j]
    ensures WellPlaced(active, older[pid := bs], WithPlaces(places, pid, bs))
    ensures WellPlaced(active, older - {pid}, places)
  {
  }

  lemma UpdateKeepsOthers<V>(m: map<string, V>, pid: string, v: V)
    ensures m[pid := v] - {pid} == m - {pid}
  {
  }

  lemma SameKey<V>(m: map<string, V>, n: map<string, V>, pid: string, q: string)
    requires m - {pid} == n - {pid} && q != pid
    ensures q in m <==> q in n
    ensures q in m ==> m[q] == n[q]
  {
    assert q in m <==> q in m - {pid};
    assert q in n <==> q in n - {pid};
    if q in m {
      assert (m - {pid})[q] == (n - {pid})[q];
    }
  }

  /** One step of the backward walk. */
  lemma WalkStep(key: Key, entries: seq<Blob>, i: nat)
    requires i < |entries|
    ensures var plain := DecryptWithRawKey(entries[i], key, None);
            Walk(key, entries[..i + 1]) ==
            if plain.None? || !plain.value.KeyB64? || |plain.value.bytes| != KEY_BYTES then []
            else [plain.value.bytes] + Walk(plain.value.bytes, entries[..i])
  {
    assert entries[..i + 1][..i] == entries[..i];
  }

  class ProjectKeyStore {
    const daemon: int
    var projectKeys: map<string, array<byte>>
    var projectKeysOld: map<string, seq<array<byte>>>
    var projectKeyRingEntries: map<string, seq<Blob>>
    /** The key file. */
    var store: map<string, Persisted>

    /** Each stored buffer's one place: the project, and 0 for the active key or its age rank. */
    ghost var place: Places

    /** The buffer of the active key, if any. */
    function Active(pid: string): seq<array<byte>>
      reads this
    {
      if pid in projectKeys then [projectKeys[pid]] else []
    }

    /** The buffers of the older keys, newest first. */
    function Older(pid: string): seq<array<byte>>
      reads this
    {
      if pid in projectKeysOld then projectKeysOld[pid] else []
    }

    /** Every stored buffer has exactly one place, so none is stored twice; older keys need an active one. */
    ghost predicate Valid()
      reads this
    {
      && WellPlaced(projectKeys, projectKeysOld, place)
      && projectKeysOld.Keys <= projectKeys.Keys
      && projectKeyRingEntries.Keys <= projectKeys.Keys
    }

    /** Zeroing one project's buffers therefore reaches no other key. */
    lemma NeverAliased(p: string, q: string)
      requires Valid()
      ensures forall i :: 0 <= i < |Older(q)| ==> Older(q)[i] !in Active(p)
      ensures forall i, j :: 0 <= i < |Older(p)| && 0 <= j < |Older(q)| && (p != q || i != j) ==>
              Older(p)[i] != Older(q)[j]
      ensures p != q ==> forall b :: b in Active(p) ==> b !in Active(q)
    {
    }

    lemma Separate(pid: string)
      requires Valid()
      ensures forall q, i :: q != pid && 0 <= i < |Active(q)| ==>
              Active(q)[i] !in Active(pid) && Active(q)[i] !in Older(pid)
      ensures forall q, i :: q != pid && 0 <= i < |Older(q)| ==>
              Older(q)[i] !in Active(pid) && Older(q)[i] !in Older(pid)
    {
      forall q, i | q != pid && 0 <= i < |Active(q)|
          ensures Active(q)[i] !in Active(pid) && Active(q)[i] !in Older(pid) {
        NeverAliased(q, pid);
        assert Active(q)[i] in Active(q);
      }
      forall q, i | q != pid && 0 <= i < |Older(q)| ensures Older(q)[i] !in Active(pid) && Older(q)[i] !in Older(pid) {
        NeverAliased(q, pid);
        NeverAliased(pid, q);
      }
    }

    /** What RAM holds for a project, as values. */
    ghost function Ram(pid: string): Ring
      reads this, Active(pid), Older(pid)
    {
      Ring(
        if |Active(pid)| == 1 then Some(Active(pid)[0][..]) else None,
        Values(Older(pid)),
        Entries(pid))
    }

    function Entries(pid: string): seq<Blob>
      reads this
    {
      if pid in projectKeyRingEntries then projectKeyRingEntries[pid] else []
    }

    function Disk(pid: string): Option<Persisted>
      reads this
    {
      if pid in store then Some(store[pid]) else None
    }

    ghost function View(pid: string): Project
      reads this, Active(pid), Older(pid)
    {
      Project(Ram(pid), Disk(pid))
    }

    /** A project whose maps and buffers are untouched looks the same. */
    twostate lemma SameView(q: string)
      requires Active(q) == old(Active(q)) && Older(q) == old(Older(q)) && Disk(q) == old(Disk(q))
      requires Entries(q) == old(Entries(q))
      requires forall i :: 0 <= i < |Active(q)| ==> Active(q)[i][..] == old(Active(q)[i][..])
      requires forall i :: 0 <= i < |Older(q)| ==> Older(q)[i][..] == old(Older(q)[i][..])
      ensures View(q) == old(View(q))
    {
      SameValues(Older(q));
    }

    /** The maps agree on every other project. */
    twostate predicate OthersKept(pid: string)
      reads this
    {
      && projectKeys - {pid} == old(projectKeys) - {pid}
      && projectKeysOld - {pid} == old(projectKeysOld) - {pid}
      && projectKeyRingEntries - {pid} == old(projectKeyRingEntries) - {pid}
      && store - {pid} == old(store) - {pid}
    }

    /** Then every other project looks the same, as its buffers are not those of `pid`. */
    twostate lemma OthersLookTheSame(pid: string)
      requires OthersKept(pid)
      requires forall q, i :: q != pid && 0 <= i < |old(Active(q))| ==> old(Active(q))[i][..] == old(Active(q)[i][..])
      requires forall q, i :: q != pid && 0 <= i < |old(Older(q))| ==> old(Older(q))[i][..] == old(Older(q)[i][..])
      ensures forall q :: q != pid ==> View(q) == old(View(q))
    {
      forall q | q != pid ensures View(q) == old(View(q)) {
        SameKey(projectKeys, old(projectKeys), pid, q);
        SameKey(projectKeysOld, old(projectKeysOld), pid, q);
        SameKey(projectKeyRingEntries, old(projectKeyRingEntries), pid, q);
        SameKey(store, old(store), pid, q);
        SameView(q);
      }
    }

    constructor (daemon: int, store: map<string, Persisted>)
      ensures Valid() && this.daemon == daemon
      ensures forall p :: View(p) == Project(EMPTY_RING, if p in store then Some(store[p]) else None)
    {
      this.daemon, this.store := daemon, store;
      projectKeys, projectKeysOld, projectKeyRingEntries, place := map[], map[], map[], map[];
    }

    /** Walks the ring backwards from the active key into fresh buffers. */
    method WalkRing(ativa: array<byte>, entries: seq<Blob>) returns (antigas: seq<array<byte>>)
      requires ativa.Length == KEY_BYTES
      ensures Values(antigas) == Walk(ativa[..], entries)
      ensures forall i :: 0 <= i < |antigas| ==> fresh(antigas[i]) && antigas[i].Length == KEY_BYTES
      ensures forall i, j :: 0 <= i < j < |antigas| ==> antigas[i] != antigas[j]
    {
      antigas := [];
      var chave := ativa;
      ghost var target, keys, key := Walk(ativa[..], entries), [], ativa[..];
      var i := |entries|;
      assert entries[..i] == entries;
      while i > 0
        invariant 0 <= i <= |entries|
        invariant chave[..] == key && |key| == KEY_BYTES
        invariant keys + Walk(key, entries[..i]) == target
        invariant |keys| == |antigas| && forall j :: 0 <= j < |antigas| ==> antigas[j][..] == keys[j]
        invariant forall j :: 0 <= j < |antigas| ==> fresh(antigas[j]) && antigas[j].Length == KEY_BYTES
        invariant forall j, k :: 0 <= j < k < |antigas| ==> antigas[j] != antigas[k]
      {
        i := i - 1;
        WalkStep(key, entries, i);
        var plain := DecryptWithRawKey(entries[i], chave[..], None);
        if plain.None? || !plain.value.KeyB64? || |plain.value.bytes| != KEY_BYTES {
          break;
        }
        chave := NewBuffer(plain.value.bytes);
        antigas := antigas + [chave];
        key := plain.value.bytes;
        keys := keys + [key];
      }
      assert keys == target;
      assert Values(antigas) == keys;
    }

    /** Swaps in a list of older keys and its entries; touches no buffer. */
    method Install(pid: string, antigas: seq<array<byte>>, entries: seq<Blob>)
      requires Valid() && pid in projectKeys
      requires forall i :: 0 <= i < |antigas| ==> antigas[i].Length == KEY_BYTES
      requires forall i :: 0 <= i < |antigas| ==> antigas[i] !in place
      requires forall i, j :: 0 <= i < j < |antigas| ==> antigas[i] != antigas[j]
      modifies this
      ensures Valid() && projectKeys == old(projectKeys) && store == old(store)
      ensures Older(pid) == antigas
      ensures Ram(pid).active == old(Ram(pid).active) && Ram(pid).older == Values(antigas)
      ensures Ram(pid).entries == if |antigas| == 0 then [] else entries
      ensures OthersKept(pid)
    {
      InstallKeepsPlaces(projectKeys, projectKeysOld, place, pid, antigas);
      UpdateKeepsOthers(projectKeysOld, pid, antigas);
      UpdateKeepsOthers(projectKeyRingEntries, pid, entries);
      if |antigas| > 0 {
        projectKeysOld := projectKeysOld[pid := antigas];
        projectKeyRingEntries := projectKeyRingEntries[pid := entries];
        place := WithPlaces(place, pid, antigas);
      } else {
        projectKeysOld := projectKeysOld - {pid};
        projectKeyRingEntries := projectKeyRingEntries - {pid};
      }
    }

    /** Zeroing the older keys of one project reaches neither its active key nor another project. */
    method ZeroOlder(pid: string)
      requires Valid()
      modifies Older(pid)
      ensures Valid()
      ensures Ram(pid).active == old(Ram(pid).active)
      ensures forall q :: q != pid ==> View(q) == old(View(q))
    {
      NeverAliased(pid, pid);
      ZeroAll(Older(pid));
      forall q | q != pid ensures View(q) == old(View(q)) {
        NeverAliased(pid, q);
        SameView(q);
      }
    }

    /** Replaces the older keys and the entries; the replaced buffers are zeroed. */
    method ImportInto(pid: string, entries: seq<Blob>) returns (n: nat)
      requires Valid() && pid in projectKeys
      modifies this, Older(pid)
      ensures Valid() && projectKeys == old(projectKeys) && store == old(store)
      ensures Ram(pid) == Import(old(Ram(pid)), entries)
      ensures n == if entries == [] then 0 else |Ram(pid).older|
      ensures forall i :: 0 <= i < |Older(pid)| ==> Older(pid)[i] in old(Older(pid)) || fresh(Older(pid)[i])
      ensures OthersKept(pid)
    {
      if |entries| == 0 {
        return 0;
      }
      ghost var was := Ram(pid);
      ghost var target := Import(was, entries);
      var antigas := WalkRing(projectKeys[pid], entries);
      assert target == Ring(was.active, Values(antigas), if |antigas| == 0 then [] else entries);
      label Walked:
      ZeroOlder(pid);
      SameValues@Walked(antigas);
      Install(pid, antigas, entries);
      n := |antigas|;
    }

    /** Puts a fresh buffer in front of the older keys and an entry behind the ring. */
    method PushOlder(pid: string, b: array<byte>, entry: Blob)
      requires Valid() && pid in projectKeys && b.Length == KEY_BYTES && b !in place
      modifies this
      ensures Valid() && projectKeys == old(projectKeys) && store == old(store)
      ensures Older(pid) == [b] + old(Older(pid)) && place == old(place)[b := (pid, |Older(pid)|)]
      ensures Ram(pid).active == old(Ram(pid).active)
      ensures Ram(pid).older == [b[..]] + old(Ram(pid).older)
      ensures Ram(pid).entries == old(Ram(pid).entries) + [entry]
      ensures OthersKept(pid)
    {
      var bs, es := [b] + Older(pid), Entries(pid) + [entry];
      PushKeepsPlaces(projectKeys, projectKeysOld, place, pid, b);
      UpdateKeepsOthers(projectKeysOld, pid, bs);
      UpdateKeepsOthers(projectKeyRingEntries, pid, es);
      assert Values(bs) == [b[..]] + Ram(pid).older;
      projectKeyRingEntries, projectKeysOld := projectKeyRingEntries[pid := es], projectKeysOld[pid := bs];
      place := place[b := (pid, |bs|)];
      SameValues(bs);
    }

    /** Moves a copy of the active key into the ring; the active buffer itself stays for the caller. */
    method PromoteActiveToRing(pid: string, newKey: array<byte>)
      requires Valid() && newKey.Length == KEY_BYTES
      modifies this
      ensures Valid() && projectKeys == old(projectKeys) && store == old(store)
      ensures Ram(pid) == Promote(old(Ram(pid)), newKey[..])
      ensures forall i :: 0 <= i < |Older(pid)| ==> Older(pid)[i] in old(Older(pid)) || fresh(Older(pid)[i])
      ensures forall b :: b in old(place) ==> b in place && place[b] == old(place)[b]
      ensures forall b :: b in place && b !in old(place) ==> fresh(b)
      ensures OthersKept(pid)
    {
      if pid !in projectKeys || projectKeys[pid][..] == newKey[..] {
        return;
      }
      var oldCopy := NewBuffer(projectKeys[pid][..]);
      var entry := EncryptWithRawKey(KeyB64(oldCopy[..]), newKey[..], None);
      if entry.None? {
        assert false;
        return;
      }
      PushOlder(pid, oldCopy, entry.value);
    }

    /** Puts a fresh buffer in the active place. */
    method SetActive(pid: string, raw: array<byte>)
      requires Valid() && raw.Length == KEY_BYTES && raw !in place
      modifies this
      ensures Valid() && store == old(store)
      ensures projectKeys == old(projectKeys)[pid := raw]
      ensures Older(pid) == old(Older(pid)) && Ram(pid) == old(Ram(pid)).(active := Some(raw[..]))
      ensures place == old(place)[raw := (pid, 0)]
      ensures OthersKept(pid)
    {
      UpdateKeepsOthers(projectKeys, pid, raw);
      projectKeys := projectKeys[pid := raw];
      place := place[raw := (pid, 0)];
      SameValues(Older(pid));
    }

    /** Writes the wrap and the ring of a project; a failed write leaves the file as it was. */
    method PersistProjectCrypto(pid: string, wrap: Wrap, writeOk: bool)
      requires Valid()
      modifies this`store
      ensures Valid()
      ensures Disk(pid) == if writeOk then Some(Persisted(wrap, Ram(pid).entries)) else old(Disk(pid))
      ensures Ram(pid) == old(Ram(pid))
      ensures OthersKept(pid)
    {
      var next := Persisted(wrap, Entries(pid));
      if writeOk && Disk(pid) != Some(next) {
        UpdateKeepsOthers(store, pid, next);
        store := store[pid := next];
      }
      SameValues(Older(pid));
    }

    /** Promotes the active key if it differs, replaces it, and zeroes the buffer that was replaced. */
    method ReplaceActive(pid: string, raw: array<byte>)
      requires Valid() && raw.Length == KEY_BYTES && raw !in place
      modifies this, Active(pid)
      ensures Valid() && store == old(store) && pid in projectKeys
      ensures Ram(pid) == Promote(old(Ram(pid)), old(raw[..])).(active := Some(old(raw[..])))
      ensures forall i :: 0 <= i < |Older(pid)| ==> Older(pid)[i] in old(Older(pid)) || fresh(Older(pid)[i])
      ensures OthersKept(pid)
    {
      var prev := Active(pid);
      PromoteActiveToRing(pid, raw);
      SetActive(pid, raw);
      if |prev| == 1 && prev[0][..] != raw[..] {
        Unstored(pid, prev[0]);
        ZeroRetired(pid, prev[0]);
      }
    }

    /** Unwraps and caches the active key; a different key still in RAM is promoted to the ring. */
    method RememberProjectKey(pid: string, wrap: Wrap, keyRing: seq<Blob>, writeOk: bool) returns (ok: bool)
      requires Valid()
      modifies this, Active(pid), Older(pid)
      ensures Valid()
      ensures ok == Unwraps(wrap, daemon)
      ensures View(pid) == Remember(old(View(pid)), wrap, keyRing, daemon, writeOk)
      ensures forall q :: q != pid ==> View(q) == old(View(q))
    {
      if !Unwraps(wrap, daemon) {
        return false;
      }
      Separate(pid);
      var raw := NewBuffer(wrap.raw);
      ReplaceImportPersist(pid, raw, wrap, keyRing, writeOk);
      OthersLookTheSame(pid);
      return true;
    }

    method ReplaceImportPersist(pid: string, raw: array<byte>, wrap: Wrap, keyRing: seq<Blob>, writeOk: bool)
      requires Valid() && raw[..] == wrap.raw && raw !in place && Unwraps(wrap, daemon)
      modifies this, Active(pid), Older(pid)
      ensures Valid() && View(pid) == Remember(old(View(pid)), wrap, keyRing, daemon, writeOk)
      ensures OthersKept(pid)
    {
      ReplaceAndImport(pid, raw, keyRing);
      PersistProjectCrypto(pid, wrap, writeOk);
    }

    /** The server's ring, when it sends one, replaces the chain that promotion built. */
    method ReplaceAndImport(pid: string, raw: array<byte>, keyRing: seq<Blob>)
      requires Valid() && raw.Length == KEY_BYTES && raw !in place
      modifies this, Active(pid), Older(pid)
      ensures Valid() && store == old(store)
      ensures Ram(pid) == RememberedRing(old(Ram(pid)), old(raw[..]), keyRing)
      ensures OthersKept(pid)
    {
      ReplaceActive(pid, raw);
      if |keyRing| > 0 {
        assert forall i :: 0 <= i < |Older(pid)| ==> Older(pid)[i] in old(Older(pid)) || fresh(Older(pid)[i]);
        var _ := ImportInto(pid, keyRing);
      }
    }

    /** A buffer placed as an active key but replaced there is stored nowhere. */
    lemma Unstored(pid: string, b: array<byte>)
      requires Valid() && PlacedAt(place, b, pid, 0) && b !in Active(pid)
      ensures forall q :: b !in Active(q) && b !in Older(q)
    {
    }

    /** Zeroing a buffer that is stored nowhere changes nothing that is stored. */
    method ZeroRetired(pid: string, b: array<byte>)
      requires Valid()
      requires forall q :: b !in Active(q) && b !in Older(q)
      modifies b
      ensures Valid() && Ram(pid) == old(Ram(pid))
    {
      Zero(b);
      forall i | 0 <= i < |Active(pid)| ensures Active(pid)[i][..] == old(Active(pid)[i][..]) {
        assert Active(pid)[i] in Active(pid);
      }
      forall i | 0 <= i < |Older(pid)| ensures Older(pid)[i][..] == old(Older(pid)[i][..]) {
        assert Older(pid)[i] in Older(pid);
      }
      SameView(pid);
    }

    /** Restores a key from the key file into empty RAM. */
    method RestoreFromDisk(pid: string) returns (ok: bool)
      requires Valid() && pid !in projectKeys
      modifies this, Active(pid), Older(pid)
      ensures Valid() && View(pid) == Use(old(View(pid)), daemon)
      ensures ok == Ram(pid).active.Some?
      ensures forall q :: q != pid ==> View(q) == old(View(q))
    {
      var entry := Disk(pid);
      if entry.None? || !Unwraps(entry.value.wrap, daemon) {
        return false;
      }
      Separate(pid);
      var raw := NewBuffer(entry.value.wrap.raw);
      SetActive(pid, raw);
      var keyRing := KeepSealed(entry.value.keyRing);
      if |keyRing| > 0 {
        var _ := ImportInto(pid, keyRing);
      }
      OthersLookTheSame(pid);
      return true;
    }

    /** RAM first, the key file otherwise. */
    method KeyFor(pid: string) returns (key: array?<byte>)
      requires Valid()
      modifies this, Active(pid), Older(pid)
      ensures Valid() && View(pid) == Use(old(View(pid)), daemon)
      ensures key == null <==> Ram(pid).active.None?
      ensures key != null ==> Active(pid) == [key]
      ensures forall q :: q != pid ==> View(q) == old(View(q))
    {
      if pid in projectKeys {
        return projectKeys[pid];
      }
      var ok := RestoreFromDisk(pid);
      key := if ok then projectKeys[pid] else null;
    }

    /** Tries the active key, then the older ones, newest first. */
    method OpenForProject(pid: string, stored: Blob, aad: Option<string>) returns (plain: Option<Plain>)
      requires Valid()
      modifies this, Active(pid), Older(pid)
      ensures Valid()
      ensures plain == DecryptForProject(Use(old(View(pid)), daemon).ram, stored, aad)
      ensures forall q :: q != pid ==> View(q) == old(View(q))
    {
      if stored.V1? {
        return None;
      }
      if stored.Clear? {
        return Some(stored.plain);
      }
      if stored.V2? && (aad == None || aad == Some("")) {
        return None;
      }
      var key := KeyFor(pid);
      if key == null {
        return None;
      }
      plain := FirstToOpen(key, Older(pid), stored, aad);
      assert Ram(pid).active == Some(key[..]);
    }
  }

  /** Tries a key, then the others in order. */
  method FirstToOpen(key: array<byte>, antigas: seq<array<byte>>, stored: Blob, aad: Option<string>)
    returns (plain: Option<Plain>)
    ensures plain == FirstOpening([key[..]] + Values(antigas), stored, aad)
  {
    ghost var keys := [key[..]] + Values(antigas);
    plain := DecryptWithRawKey(stored, key[..], aad);
    if plain.Some? {
      return;
    }
    for i := 0 to |antigas|
      invariant FirstOpening(keys, stored, aad) == FirstOpening(keys[i + 1..], stored, aad)
    {
      plain := DecryptWithRawKey(stored, antigas[i][..], aad);
      if plain.Some? {
        return;
      }
    }
    return None;
  }

  /** The entries of a persisted ring that are sealed. */
  method KeepSealed(entries: seq<Blob>) returns (r: seq<Blob>)
    ensures r == SealedOnly(entries)
  {
    r := [];
    for i := 0 to |entries|
      invariant r == SealedOnly(entries[..i])
    {
      assert entries[..i + 1][..i] == entries[..i];
      if IsE2eEncrypted(entries[i]) {
        r := r + [entries[i]];
      }
    }
    assert entries[..|entries|] == entries;
  }
}
