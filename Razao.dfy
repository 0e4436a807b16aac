/**
 * The ledger as a value: the sequence of account records the repository
 * holds, the queries the repository answers about it, and the invariants the
 * services keep (unique numbers, at most one investment account per
 * customer, no savings account for an organization).
 */
module Razao {
  import opened Dominio

  /** The account numbers in use: those for which `findByNumero` finds an account. */
  function Numeros(rs: seq<Registro>): set<Long>
  {
    set i | 0 <= i < |rs| :: rs[i].numero
  }

  predicate Casa(r: Registro, cliente: Cliente, tipo: TipoConta)
  {
    r.cliente == cliente && r.tipo == tipo
  }

  /**
   * The positions of the accounts of `cliente` of type `tipo`, in repository
   * order: the rows `findContasByClienteAndTipo` returns.
   */
  function Indices(rs: seq<Registro>, cliente: Cliente, tipo: TipoConta): (ix: seq<nat>)
    ensures forall k :: 0 <= k < |ix| ==> ix[k] < |rs| && Casa(rs[ix[k]], cliente, tipo)
    ensures forall i :: 0 <= i < |rs| && Casa(rs[i], cliente, tipo) ==> i in ix
    decreases |rs|
  {
    if rs == [] then []
    else
      var n := |rs| - 1;
      Indices(rs[..n], cliente, tipo) + (if Casa(rs[n], cliente, tipo) then [n] else [])
  }

  predicate NumerosUnicos(rs: seq<Registro>)
  {
    forall i, j :: 0 <= i < j < |rs| ==> rs[i].numero != rs[j].numero
  }

  predicate UmaInvestimentoPorCliente(rs: seq<Registro>)
  {
    forall i, j :: 0 <= i < j < |rs| && rs[i].tipo == ContaInvestimento && rs[j].tipo == ContaInvestimento ==>
      rs[i].cliente != rs[j].cliente
  }

  predicate PjSemPoupanca(rs: seq<Registro>)
  {
    forall i :: 0 <= i < |rs| && rs[i].tipo == ContaPoupanca ==> rs[i].cliente.tipo != Some(PJ)
  }

  /** The ledger invariants the services preserve. */
  predicate Invariantes(rs: seq<Registro>)
  {
    NumerosUnicos(rs) && UmaInvestimentoPorCliente(rs) && PjSemPoupanca(rs)
  }

  /** Every directory entry is filed under its own document. */
  predicate DiretorioValido(clientes: map<string, Cliente>)
  {
    forall d :: d in clientes ==> clientes[d].documento == d
  }

  /**
   * Every stored account's owner is the customer registered under its
   * document: an account refers to the one customer entity, so its owner
   * is never a different value for the same document.
   */
  predicate DonosRegistrados(rs: seq<Registro>, clientes: map<string, Cliente>)
  {
    forall i :: 0 <= i < |rs| ==>
      rs[i].cliente.documento in clientes && clientes[rs[i].cliente.documento] == rs[i].cliente
  }

  /** Same accounts in the same places, balances aside. */
  predicate MesmaIdentidade(rs: seq<Registro>, rs': seq<Registro>)
  {
    |rs| == |rs'| &&
    forall i :: 0 <= i < |rs| ==>
      rs[i].numero == rs'[i].numero && rs[i].tipo == rs'[i].tipo && rs[i].cliente == rs'[i].cliente
  }

  /** Appending one account adds its number, and only it, to the numbers in use. */
  lemma {:induction false} NumerosAcrescentar(rs: seq<Registro>, x: Registro)
    ensures Numeros(rs + [x]) == Numeros(rs) + {x.numero}
  {
    var rs' := rs + [x];
    forall n | n in Numeros(rs) ensures n in Numeros(rs') {
      var i :| 0 <= i < |rs| && rs[i].numero == n;
      assert rs'[i].numero == n;
    }
    assert rs'[|rs|].numero == x.numero;
  }

  /** Appending one account adds its position, and only it, to the query of its owner and type. */
  lemma {:induction false} IndicesAcrescentar(rs: seq<Registro>, x: Registro, cliente: Cliente, tipo: TipoConta)
    ensures Indices(rs + [x], cliente, tipo) ==
            Indices(rs, cliente, tipo) + (if Casa(x, cliente, tipo) then [|rs|] else [])
  {
    assert (rs + [x])[..|rs|] == rs;
  }

  /** A query lists the positions in storage order, each once. */
  lemma {:induction false} IndicesCrescentes(rs: seq<Registro>, cliente: Cliente, tipo: TipoConta)
    ensures forall k, l :: 0 <= k < l < |Indices(rs, cliente, tipo)| ==>
              Indices(rs, cliente, tipo)[k] < Indices(rs, cliente, tipo)[l]
    decreases |rs|
  {
    if rs != [] {
      var n := |rs| - 1;
      var p := Indices(rs[..n], cliente, tipo);
      IndicesCrescentes(rs[..n], cliente, tipo);
      var ix := Indices(rs, cliente, tipo);
      assert ix == p + (if Casa(rs[n], cliente, tipo) then [n] else []);
      forall k, l | 0 <= k < l < |ix| ensures ix[k] < ix[l] {
        if l < |p| {
          assert ix[k] == p[k] && ix[l] == p[l];
        } else {
          assert ix[k] == p[k] < n && ix[l] == n;
        }
      }
    }
  }

  /** Two positions in a query are two distinct matching accounts. */
  lemma {:induction false} DoisIndices(rs: seq<Registro>, cliente: Cliente, tipo: TipoConta)
    ensures |Indices(rs, cliente, tipo)| > 1 ==>
            exists i, j :: 0 <= i < j < |rs| && Casa(rs[i], cliente, tipo) && Casa(rs[j], cliente, tipo)
  {
    var ix := Indices(rs, cliente, tipo);
    if |ix| > 1 {
      IndicesCrescentes(rs, cliente, tipo);
      assert ix[0] < ix[1] && Casa(rs[ix[0]], cliente, tipo) && Casa(rs[ix[1]], cliente, tipo);
    }
  }

  /** At most one investment account per customer, stated as the repository query sees it. */
  lemma {:induction false} UmaInvestimentoSeIndices(rs: seq<Registro>)
    ensures UmaInvestimentoPorCliente(rs) ==> forall c :: |Indices(rs, c, ContaInvestimento)| <= 1
    ensures (forall c :: |Indices(rs, c, ContaInvestimento)| <= 1) ==> UmaInvestimentoPorCliente(rs)
  {
    if UmaInvestimentoPorCliente(rs) {
      forall c ensures |Indices(rs, c, ContaInvestimento)| <= 1 {
        DoisIndices(rs, c, ContaInvestimento);
      }
    } else {
      var i, j :| 0 <= i < j < |rs| && rs[i].tipo == ContaInvestimento && rs[j].tipo == ContaInvestimento &&
                  rs[i].cliente == rs[j].cliente;
      var ix := Indices(rs, rs[i].cliente, ContaInvestimento);
      assert i in ix && j in ix;
    }
  }

  /** Changing only balances leaves every owner-and-type query as it was. */
  lemma {:induction false} IndicesMesmaIdentidade(rs: seq<Registro>, rs': seq<Registro>, cliente: Cliente, tipo: TipoConta)
    requires MesmaIdentidade(rs, rs')
    ensures Indices(rs, cliente, tipo) == Indices(rs', cliente, tipo)
    decreases |rs|
  {
    if rs != [] {
      var n := |rs| - 1;
      assert MesmaIdentidade(rs[..n], rs'[..n]);
      IndicesMesmaIdentidade(rs[..n], rs'[..n], cliente, tipo);
    }
  }

  /** Changing only balances leaves the numbers in use and every invariant as they were. */
  lemma {:induction false} MesmaIdentidadePreserva(rs: seq<Registro>, rs': seq<Registro>)
    requires MesmaIdentidade(rs, rs')
    ensures Numeros(rs) == Numeros(rs')
    ensures NumerosUnicos(rs) <==> NumerosUnicos(rs')
    ensures UmaInvestimentoPorCliente(rs) <==> UmaInvestimentoPorCliente(rs')
    ensures PjSemPoupanca(rs) <==> PjSemPoupanca(rs')
  {
    forall n | n in Numeros(rs) ensures n in Numeros(rs') {
      var i :| 0 <= i < |rs| && rs[i].numero == n;
      assert rs'[i].numero == n;
    }
    forall n | n in Numeros(rs') ensures n in Numeros(rs) {
      var i :| 0 <= i < |rs'| && rs'[i].numero == n;
      assert rs[i].numero == n;
    }
  }

  /**
   * Appending an account with an unused number keeps the numbers unique; it
   * keeps the other invariants unless it is a savings account of an
   * organization or a second investment account of its owner.
   */
  lemma {:induction false} AcrescentarPreserva(rs: seq<Registro>, x: Registro)
    requires x.numero !in Numeros(rs)
    ensures NumerosUnicos(rs) ==> NumerosUnicos(rs + [x])
    ensures PjSemPoupanca(rs) && (x.tipo == ContaPoupanca ==> x.cliente.tipo != Some(PJ)) ==>
            PjSemPoupanca(rs + [x])
    ensures UmaInvestimentoPorCliente(rs) &&
            (x.tipo == ContaInvestimento ==> Indices(rs, x.cliente, ContaInvestimento) == []) ==>
            UmaInvestimentoPorCliente(rs + [x])
  {
    var rs' := rs + [x];
    forall i | 0 <= i < |rs| ensures rs'[i] == rs[i] && rs[i].numero != x.numero {
      assert rs[i].numero in Numeros(rs);
    }
    if UmaInvestimentoPorCliente(rs) && (x.tipo == ContaInvestimento ==> Indices(rs, x.cliente, ContaInvestimento) == []) {
      forall i, j | 0 <= i < j < |rs'| && rs'[i].tipo == ContaInvestimento && rs'[j].tipo == ContaInvestimento
        ensures rs'[i].cliente != rs'[j].cliente
      {
      }
    }
  }

  /**
   * With every owner registered, the query for a registered customer is the
   * query by document: it finds exactly the accounts of that document and type.
   */
  lemma {:induction false} IndicesPorDocumento(rs: seq<Registro>, clientes: map<string, Cliente>, d: string, tipo: TipoConta)
    requires DiretorioValido(clientes) && DonosRegistrados(rs, clientes) && d in clientes
    ensures forall i :: 0 <= i < |rs| ==>
              (i in Indices(rs, clientes[d], tipo) <==> rs[i].cliente.documento == d && rs[i].tipo == tipo)
  {
    forall i | 0 <= i < |rs| && i in Indices(rs, clientes[d], tipo)
      ensures rs[i].cliente.documento == d && rs[i].tipo == tipo
    {
      var k :| 0 <= k < |Indices(rs, clientes[d], tipo)| && Indices(rs, clientes[d], tipo)[k] == i;
    }
  }

  /**
   * With every owner registered, "at most one investment account per
   * customer" is "at most one investment account per document".
   */
  lemma {:induction false} UmaInvestimentoPorDocumento(rs: seq<Registro>, clientes: map<string, Cliente>)
    requires DonosRegistrados(rs, clientes)
    ensures UmaInvestimentoPorCliente(rs) <==>
            forall i, j :: 0 <= i < j < |rs| && rs[i].tipo == ContaInvestimento && rs[j].tipo == ContaInvestimento ==>
              rs[i].cliente.documento != rs[j].cliente.documento
  {
  }

  /** Changing only balances keeps every owner registered. */
  lemma {:induction false} MesmaIdentidadeDonos(rs: seq<Registro>, rs': seq<Registro>, clientes: map<string, Cliente>)
    requires MesmaIdentidade(rs, rs')
    ensures DonosRegistrados(rs, clientes) <==> DonosRegistrados(rs', clientes)
  {
  }

  /** Appending an account of a registered customer keeps every owner registered. */
  lemma {:induction false} AcrescentarDonos(rs: seq<Registro>, x: Registro, clientes: map<string, Cliente>)
    requires DonosRegistrados(rs, clientes)
    requires x.cliente.documento in clientes && clientes[x.cliente.documento] == x.cliente
    ensures DonosRegistrados(rs + [x], clientes)
  {
    var rs' := rs + [x];
    forall i | 0 <= i < |rs'|
      ensures rs'[i].cliente.documento in clientes && clientes[rs'[i].cliente.documento] == rs'[i].cliente
    {
      if i < |rs| { assert rs'[i] == rs[i]; }
    }
  }
}
