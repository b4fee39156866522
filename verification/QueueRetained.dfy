/**
 * The retained queue (src/queue-retained.ts): per agent, in arrival order, at most
 * CAP_POR_AGENTE items, never two with the same idempotency key.
 */
module QueueRetained {
  import InboundDedup
  import opened Common
  import opened KeyedFifo
  import opened Messages

  const CAP_POR_AGENTE: nat := 200
  const TTL_ITEM_MS: int := 7 * 24 * 60 * 60_000

  /** The digest of source and content; any function will do, collisions included. */
  type Digest = (Source, string) -> string

  datatype Key = ById(id: string) | ByHash(hash: string)

  function ChaveItem(item: Item, digest: Digest): Key {
    if HasId(item.msg.id) then ById(item.msg.id.value) else ByHash(digest(item.source, item.msg.content))
  }

  function Chave(digest: Digest): Item -> Key {
    item => ChaveItem(item, digest)
  }

  datatype Contagem = Contagem(retidos: nat, duplicados: nat, descartados: nat)

  /** The queue of one agent after retaining `novos`, expiry already applied. */
  function Retained(itens: seq<Item>, novos: seq<Item>, digest: Digest): seq<Item> {
    Run(itens, novos, CAP_POR_AGENTE, Chave(digest))
  }

  /** The new items that were not duplicates when their turn came. */
  function Aceitos(itens: seq<Item>, novos: seq<Item>, digest: Digest): seq<Item> {
    Entered(itens, novos, CAP_POR_AGENTE, Chave(digest))
  }

  /** The new items turned away as duplicates. */
  function Recusados(itens: seq<Item>, novos: seq<Item>, digest: Digest): seq<Item> {
    if novos == [] then []
    else
      var n := |novos| - 1;
      var before := Recusados(itens, novos[..n], digest);
      if Enters(itens, novos, n, CAP_POR_AGENTE, Chave(digest)) then before else before + [novos[n]]
  }

  /** The items pushed out by the cap. */
  function Descartados(itens: seq<Item>, novos: seq<Item>, digest: Digest): seq<Item> {
    CutOff(itens + Aceitos(itens, novos, digest), CAP_POR_AGENTE)
  }

  function Contar(itens: seq<Item>, novos: seq<Item>, digest: Digest): Contagem {
    Contagem(|Aceitos(itens, novos, digest)|, |Recusados(itens, novos, digest)|, |Descartados(itens, novos, digest)|)
  }

  ghost predicate FilaValida(itens: seq<Item>, digest: Digest) {
    WellFormed(itens, CAP_POR_AGENTE, Chave(digest))
  }

  /**
   * Retaining accounts for every item: each is duplicate, evicted or present; what is present
   * is a suffix of the old queue followed by the accepted items; keys stay distinct.
   */
  lemma {:induction false} RetainedAccounts(itens: seq<Item>, novos: seq<Item>, digest: Digest)
    requires |itens| <= CAP_POR_AGENTE
    ensures Retained(itens, novos, digest) == LastN(itens + Aceitos(itens, novos, digest), CAP_POR_AGENTE)
    ensures Descartados(itens, novos, digest) + Retained(itens, novos, digest) == itens + Aceitos(itens, novos, digest)
    ensures multiset(novos) == multiset(Aceitos(itens, novos, digest)) + multiset(Recusados(itens, novos, digest))
    ensures var c := Contar(itens, novos, digest);
            c.retidos + c.duplicados == |novos| &&
            |Retained(itens, novos, digest)| == |itens| + c.retidos - c.descartados
    ensures FilaValida(itens, digest) ==> FilaValida(Retained(itens, novos, digest), digest)
  {
    RunIsNewestEntered(itens, novos, CAP_POR_AGENTE, Chave(digest));
    CutAndKept(itens + Aceitos(itens, novos, digest), CAP_POR_AGENTE);
    SplitByAcceptance(itens, novos, digest);
    if FilaValida(itens, digest) {
      RunWellFormed(itens, novos, CAP_POR_AGENTE, Chave(digest));
    }
  }

  lemma {:induction false} SplitByAcceptance(itens: seq<Item>, novos: seq<Item>, digest: Digest)
    ensures multiset(novos) == multiset(Aceitos(itens, novos, digest)) + multiset(Recusados(itens, novos, digest))
    ensures |novos| == |Aceitos(itens, novos, digest)| + |Recusados(itens, novos, digest)|
  {
    if novos != [] {
      var n := |novos| - 1;
      SplitByAcceptance(itens, novos[..n], digest);
      assert novos == novos[..n] + [novos[n]];
    }
  }

  /** Expiry keeps a queue valid. */
  lemma {:induction false} FreshStaysValid(itens: seq<Item>, cutoff: int, digest: Digest)
    requires FilaValida(itens, digest)
    ensures FilaValida(Fresh(itens, cutoff), digest)
  {
    if itens != [] {
      var init, last := itens[..|itens| - 1], itens[|itens| - 1];
      var key := Chave(digest);
      forall i, j | 0 <= i < j < |init| ensures Keys(init, key)[i] != Keys(init, key)[j] {
        assert Keys(itens, key)[i] == key(init[i]) && Keys(itens, key)[j] == key(init[j]);
      }
      FreshStaysValid(init, cutoff, digest);
      FreshAndStale(init, cutoff);
      FreshMembers(init, cutoff);
      var kept := Fresh(init, cutoff);
      if last.at >= cutoff {
        forall i | 0 <= i < |kept| ensures key(kept[i]) != key(last) {
          assert kept[i] in kept;
          var p :| 0 <= p < |init| && init[p] == kept[i];
          assert Keys(itens, key)[p] != Keys(itens, key)[|init|];
        }
        forall i, j | 0 <= i < j < |kept + [last]| ensures Keys(kept + [last], key)[i] != Keys(kept + [last], key)[j] {
          assert Keys(kept, key)[i] == key(kept[i]);
          if j < |kept| {
            assert Keys(kept, key)[j] == key(kept[j]);
          }
        }
      }
    }
  }

  /**
   * Giving `itens` back in front of `fila` breaks neither law exactly when the result fits
   * and the returned items clash neither with each other nor with what arrived meanwhile.
   */
  ghost predicate PodeDevolver(itens: seq<Item>, fila: seq<Item>, digest: Digest) {
    && |itens| + |fila| <= CAP_POR_AGENTE
    && Distinct(Keys(itens, Chave(digest)))
    && forall i, j :: 0 <= i < |itens| && 0 <= j < |fila| ==> ChaveItem(itens[i], digest) != ChaveItem(fila[j], digest)
  }

  lemma PodeDevolverIsExact(itens: seq<Item>, fila: seq<Item>, digest: Digest)
    requires FilaValida(fila, digest)
    ensures FilaValida(itens + fila, digest) <==> PodeDevolver(itens, fila, digest)
  {
    var key := Chave(digest);
    var all := Keys(itens + fila, key);
    assert all == Keys(itens, key) + Keys(fila, key);
    if Distinct(all) {
      forall i, j | 0 <= i < |itens| && 0 <= j < |fila|
          ensures ChaveItem(itens[i], digest) != ChaveItem(fila[j], digest) {
        assert all[i] != all[|itens| + j];
      }
      forall i, j | 0 <= i < j < |itens| ensures Keys(itens, key)[i] != Keys(itens, key)[j] {
        assert all[i] != all[j];
      }
    }
    if PodeDevolver(itens, fila, digest) {
      forall i, j | 0 <= i < j < |all| ensures all[i] != all[j] {
        if j < |itens| {
          assert Keys(itens, key)[i] != Keys(itens, key)[j];
        } else if i >= |itens| {
          assert Keys(fila, key)[i - |itens|] != Keys(fila, key)[j - |itens|];
        } else {
          assert ChaveItem(itens[i], digest) != ChaveItem(fila[j - |itens|], digest);
        }
      }
    }
  }

  /** The failing family is real: returning what was taken after the same delivery was retained again. */
  lemma DevolverCanDuplicate(digest: Digest)
    ensures var item := Plain(Msg("x", Some("d1"), false), 0);
            FilaValida([item], digest) && !FilaValida([item] + [item], digest)
  {
    var item := Plain(Msg("x", Some("d1"), false), 0);
    var all := Keys([item] + [item], Chave(digest));
    assert all[0] == all[1];
  }

  /** The items that have not outlived the retention TTL. */
  function Vivos(itens: seq<Item>, agora: int): seq<Item> {
    Fresh(itens, agora - TTL_ITEM_MS)
  }

  function Chaves(itens: seq<Item>, digest: Digest): set<Key> {
    ToSet(Keys(itens, Chave(digest)))
  }

  /** The key set is exactly the keys of a valid queue. */
  ghost predicate EstadoValido(itens: seq<Item>, chaves: set<Key>, digest: Digest) {
    chaves == Chaves(itens, digest) && FilaValida(itens, digest)
  }

  datatype Estado = Estado(itens: seq<Item>, descartados: nat)

  /** What expiry leaves is valid for its own keys; when nothing expired the old key set still fits. */
  lemma ExpiryOfState(itens: seq<Item>, chaves: set<Key>, cutoff: int, digest: Digest)
    requires EstadoValido(itens, chaves, digest)
    ensures EstadoValido(Fresh(itens, cutoff), Chaves(Fresh(itens, cutoff), digest), digest)
    ensures |itens| - |Fresh(itens, cutoff)| == |Stale(itens, cutoff)|
    ensures |Fresh(itens, cutoff)| == |itens| ==> Fresh(itens, cutoff) == itens
  {
    FreshStaysValid(itens, cutoff, digest);
    FreshAndStale(itens, cutoff);
    if |Fresh(itens, cutoff)| == |itens| {
      NothingStale(itens, cutoff);
    }
  }

  lemma EmptyIsValid(digest: Digest)
    ensures EstadoValido([], {}, digest)
  {
    assert Keys([], Chave(digest)) == [];
  }

  lemma NothingToRetain(itens: seq<Item>, digest: Digest)
    requires |itens| <= CAP_POR_AGENTE
    ensures Retained(itens, [], digest) == itens && Contar(itens, [], digest) == Contagem(0, 0, 0)
  {
    assert itens + [] == itens;
  }

  /** One arrival, in terms of the queue and the counts. */
  lemma RetainStep(vivos: seq<Item>, novos: seq<Item>, n: nat, digest: Digest)
    requires |vivos| <= CAP_POR_AGENTE && n < |novos|
    ensures var antes, depois := Retained(vivos, novos[..n], digest), Retained(vivos, novos[..n + 1], digest);
            var c, d := Contar(vivos, novos[..n], digest), Contar(vivos, novos[..n + 1], digest);
            |antes| <= CAP_POR_AGENTE &&
            if ChaveItem(novos[n], digest) in Chaves(antes, digest)
            then depois == antes && d == c.(duplicados := c.duplicados + 1)
            else depois == LastN(antes + [novos[n]], CAP_POR_AGENTE) &&
                 d == c.(retidos := c.retidos + 1,
                         descartados := c.descartados + if |antes| == CAP_POR_AGENTE then 1 else 0)
  {
    assert novos[..n + 1][..n] == novos[..n];
    RetainedAccounts(vivos, novos[..n], digest);
    RetainedAccounts(vivos, novos[..n + 1], digest);
    var key := Chave(digest);
    assert key(novos[n]) == ChaveItem(novos[n], digest);
  }

  /** The retention loop of one agent: push, count, and shift the head when above the cap. */
  method ReterLote(estado0: Estado, chaves0: set<Key>, novos: seq<Item>, digest: Digest)
    returns (estado: Estado, chaves: set<Key>, r: Contagem)
    requires EstadoValido(estado0.itens, chaves0, digest)
    ensures EstadoValido(estado.itens, chaves, digest)
    ensures estado.itens == Retained(estado0.itens, novos, digest)
    ensures r == Contar(estado0.itens, novos, digest)
    ensures estado.descartados == estado0.descartados + r.descartados
  {
    estado, chaves, r := estado0, chaves0, Contagem(0, 0, 0);
    ghost var vivos := estado0.itens;
    NothingToRetain(vivos, digest);
    for n := 0 to |novos|
      invariant estado.itens == Retained(vivos, novos[..n], digest)
      invariant EstadoValido(estado.itens, chaves, digest)
      invariant r == Contar(vivos, novos[..n], digest)
      invariant estado.descartados == estado0.descartados + r.descartados
    {
      var item := novos[n];
      RetainStep(vivos, novos, n, digest);
      var k := ChaveItem(item, digest);
      if k in chaves {
        r := r.(duplicados := r.duplicados + 1);
      } else {
        AdmitState(estado.itens, item, digest);
        chaves := chaves + {k};
        estado := estado.(itens := estado.itens + [item]);
        r := r.(retidos := r.retidos + 1);
        if |estado.itens| > CAP_POR_AGENTE {
          var velho := estado.itens[0];
          estado := Estado(estado.itens[1..], estado.descartados + 1);
          chaves := chaves - {ChaveItem(velho, digest)};
          r := r.(descartados := r.descartados + 1);
        }
      }
    }
    assert novos[..|novos|] == novos;
  }

  /** Key sets after one push, with and without the shift that follows it. */
  lemma AdmitState(itens: seq<Item>, item: Item, digest: Digest)
    requires FilaValida(itens, digest) && ChaveItem(item, digest) !in Chaves(itens, digest)
    ensures var all, ks := itens + [item], Chaves(itens, digest) + {ChaveItem(item, digest)};
            Chaves(all, digest) == ks &&
            Chaves(all[1..], digest) == ks - {ChaveItem(all[0], digest)} &&
            FilaValida(LastN(all, CAP_POR_AGENTE), digest)
  {
    var all := itens + [item];
    var key := Chave(digest);
    assert key(item) == ChaveItem(item, digest);
    assert !HoldsKey(itens, key(item), key);
    AdmitWellFormed(itens, item, CAP_POR_AGENTE, key);
    var ks := Keys(itens, key);
    assert Keys(all, key) == ks + [key(item)];
    assert Keys(all, key) == [key(all[0])] + Keys(all[1..], key);
    assert key(all[0]) !in Keys(all[1..], key) by {
      assert Keys(all[1..], key) == Keys(all, key)[1..];
      forall i | 0 < i < |all| ensures Keys(all, key)[i] != Keys(all, key)[0] {
        if i < |itens| {
          assert Distinct(ks);
        } else if itens != [] {
          assert ks[0] == key(all[0]) && ks[0] in ks;
        }
      }
    }
  }

  class FilaRetida {
    const digest: Digest
    var porAgente: map<string, Estado>
    var chavesDe: map<string, set<Key>>

    /** The key sets are exactly the keys of the queues, and every queue is valid. */
    ghost predicate Valid()
      reads this
    {
      && porAgente.Keys <= chavesDe.Keys
      && forall a {:trigger ChavesDe(a)} :: EstadoValido(Listar(a), ChavesDe(a), digest)
    }

    constructor (digest: Digest)
      ensures Valid() && this.digest == digest && porAgente == map[]
    {
      this.digest := digest;
      porAgente, chavesDe := map[], map[];
    }

    function Listar(agentId: string): seq<Item>
      reads this
    {
      if agentId in porAgente then porAgente[agentId].itens else []
    }

    function ChavesDe(agentId: string): set<Key>
      reads this
    {
      if agentId in chavesDe then chavesDe[agentId] else {}
    }

    /** One agent's share of the expiry sweep. */
    method ExpirarAgente(agentId: string, agora: int) returns (removidos: nat)
      requires Valid() && agentId in porAgente
      modifies this
      ensures Valid()
      ensures Listar(agentId) == Vivos(old(Listar(agentId)), agora)
      ensures removidos == |Stale(old(Listar(agentId)), agora - TTL_ITEM_MS)|
      ensures forall b :: b != agentId ==> Listar(b) == old(Listar(b)) && (b in porAgente <==> b in old(porAgente))
    {
      var estado := porAgente[agentId];
      var itens := InboundDedup.KeepFresh(estado.itens, agora - TTL_ITEM_MS);
      ExpiryOfState(estado.itens, ChavesDe(agentId), agora - TTL_ITEM_MS, digest);
      removidos := |estado.itens| - |itens|;
      porAgente := porAgente[agentId := estado.(itens := itens)];
      if removidos > 0 {
        if agentId in chavesDe {
          chavesDe := chavesDe[agentId := Chaves(itens, digest)];
        }
        if |itens| == 0 {
          porAgente := porAgente - {agentId};
        }
      }
      assert EstadoValido(Listar(agentId), ChavesDe(agentId), digest);
      assert forall b :: b != agentId ==> Listar(b) == old(Listar(b)) && ChavesDe(b) == old(ChavesDe(b));
    }

    /** Removes expired items of every agent. */
    method Expirar(agora: int)
      requires Valid()
      modifies this
      ensures Valid()
      ensures forall a :: Listar(a) == Vivos(old(Listar(a)), agora)
    {
      var restantes := porAgente.Keys;
      while restantes != {}
        invariant Valid() && restantes <= porAgente.Keys
        invariant forall a :: Listar(a) == if a in restantes then old(Listar(a)) else Vivos(old(Listar(a)), agora)
        decreases |restantes|
      {
        var a :| a in restantes;
        label Antes:
        var _ := ExpirarAgente(a, agora);
        restantes := restantes - {a};
        forall b ensures Listar(b) == if b in restantes then old(Listar(b)) else Vivos(old(Listar(b)), agora) {
          assert b != a ==> Listar(b) == old@Antes(Listar(b));
        }
      }
    }

    /** Retains the not-yet-started items of an agent, after expiring everybody's old ones. */
    method Reter(agentId: string, novos: seq<Item>, agora: int) returns (r: Contagem)
      requires Valid()
      modifies this
      ensures Valid()
      ensures var vivos := Vivos(old(Listar(agentId)), agora);
              Listar(agentId) == Retained(vivos, novos, digest) && r == Contar(vivos, novos, digest)
      ensures forall b :: b != agentId ==> Listar(b) == Vivos(old(Listar(b)), agora)
    {
      Expirar(agora);
      assert EstadoValido(Listar(agentId), ChavesDe(agentId), digest);
      if |novos| == 0 {
        NothingToRetain(Listar(agentId), digest);
        return Contagem(0, 0, 0);
      }
      var estado := if agentId in porAgente then porAgente[agentId] else Estado([], 0);
      var chaves := if agentId in chavesDe then chavesDe[agentId] else {};
      estado, chaves, r := ReterLote(estado, chaves, novos, digest);
      label Vencidos:
      porAgente := porAgente[agentId := estado];
      chavesDe := chavesDe[agentId := chaves];
      assert forall b :: b != agentId ==>
             Listar(b) == old@Vencidos(Listar(b)) && ChavesDe(b) == old@Vencidos(ChavesDe(b));
    }

    /** Takes everything; the caller redelivers it in order. */
    method Tomar(agentId: string) returns (itens: seq<Item>)
      requires Valid()
      modifies this
      ensures Valid()
      ensures itens == old(Listar(agentId)) && Listar(agentId) == []
      ensures forall b :: b != agentId ==> Listar(b) == old(Listar(b))
    {
      if agentId !in porAgente {
        return [];
      }
      itens := porAgente[agentId].itens;
      porAgente := porAgente[agentId := porAgente[agentId].(itens := [])];
      chavesDe := chavesDe[agentId := {}];
      EmptyIsValid(digest);
      assert forall b :: b != agentId ==> Listar(b) == old(Listar(b)) && ChavesDe(b) == old(ChavesDe(b));
    }

    /** Puts undelivered items back in front; checks neither the cap nor the keys. */
    method Devolver(agentId: string, itens: seq<Item>)
      requires Valid()
      modifies this
      ensures Listar(agentId) == itens + old(Listar(agentId))
      ensures Valid() <==> itens == [] || PodeDevolver(itens, old(Listar(agentId)), digest)
      ensures forall b :: b != agentId ==> Listar(b) == old(Listar(b))
    {
      if |itens| == 0 {
        assert itens + Listar(agentId) == Listar(agentId);
        return;
      }
      ghost var fila := Listar(agentId);
      assert EstadoValido(fila, ChavesDe(agentId), digest);
      PodeDevolverIsExact(itens, fila, digest);
      var estado := if agentId in porAgente then porAgente[agentId] else Estado([], 0);
      estado := estado.(itens := itens + estado.itens);
      var chaves := if agentId in chavesDe then chavesDe[agentId] else {};
      chaves := chaves + Chaves(itens, digest);
      assert Keys(itens + fila, Chave(digest)) == Keys(itens, Chave(digest)) + Keys(fila, Chave(digest));
      chavesDe := chavesDe[agentId := chaves];
      porAgente := porAgente[agentId := estado];
      if PodeDevolver(itens, fila, digest) {
        assert EstadoValido(Listar(agentId), ChavesDe(agentId), digest);
        assert forall b :: b != agentId ==> Listar(b) == old(Listar(b)) && ChavesDe(b) == old(ChavesDe(b));
      }
      if Valid() {
        assert EstadoValido(Listar(agentId), ChavesDe(agentId), digest);
      }
    }

    /** Forgets an agent. */
    method Esquecer(agentId: string) returns (n: nat)
      requires Valid()
      modifies this
      ensures Valid()
      ensures n == |old(Listar(agentId))| && Listar(agentId) == []
      ensures forall b :: b != agentId ==> Listar(b) == old(Listar(b))
    {
      n := |Listar(agentId)|;
      porAgente := porAgente - {agentId};
      chavesDe := chavesDe - {agentId};
      EmptyIsValid(digest);
      assert forall b :: b != agentId ==> Listar(b) == old(Listar(b)) && ChavesDe(b) == old(ChavesDe(b));
    }

    /** Taking and giving back with nothing in between restores the queue. */
    method TomarEDevolver(agentId: string)
      requires Valid()
      modifies this
      ensures Valid() && forall b :: Listar(b) == old(Listar(b))
    {
      assert EstadoValido(Listar(agentId), ChavesDe(agentId), digest);
      var itens := Tomar(agentId);
      assert itens + [] == itens;
      Devolver(agentId, itens);
    }
  }

  lemma {:induction false} NothingStale(itens: seq<Item>, cutoff: int)
    requires |Fresh(itens, cutoff)| == |itens|
    ensures Fresh(itens, cutoff) == itens
  {
    if itens != [] {
      FreshAndStale(itens[..|itens| - 1], cutoff);
      NothingStale(itens[..|itens| - 1], cutoff);
    }
  }
}
