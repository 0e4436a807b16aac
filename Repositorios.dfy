/**
 * The two stores the services use, as object stores: accounts, held as the
 * managed entities in storage order, and customers, keyed by document.
 */
module Repositorios {
  import opened Dominio
  import opened Razao

  class ContaRepository {
    /** The stored accounts, in storage order. */
    var contas: seq<Conta>

    /** Each stored row is one managed entity: no entity is stored twice. */
    ghost predicate Valid()
      reads this
    {
      forall i, j :: 0 <= i < j < |contas| ==> contas[i] != contas[j]
    }

    constructor ()
      ensures Valid() && contas == []
    {
      contas := [];
    }

    /** The stored values, position by position. */
    function Registros(): (rs: seq<Registro>)
      reads this, contas
      ensures |rs| == |contas|
      ensures forall i :: 0 <= i < |contas| ==> rs[i] == contas[i].Dados()
    {
      var cs := contas;
      seq(|cs|, i requires 0 <= i < |cs| reads cs => cs[i].Dados())
    }

    /** `findByNumero`: the stored account with this number, if any. */
    function FindByNumero(numero: Long): (r: Option<Conta>)
      reads this, contas
      ensures r.Some? ==> r.value in contas && r.value.numero == numero
      ensures r.None? <==> numero !in Numeros(Registros())
    {
      BuscaDesde(numero, 0)
    }

    function BuscaDesde(numero: Long, i: nat): (r: Option<Conta>)
      reads this, contas
      requires i <= |contas|
      ensures r.Some? ==> r.value in contas[i..] && r.value.numero == numero
      ensures r.None? ==> forall j :: i <= j < |contas| ==> contas[j].numero != numero
      decreases |contas| - i
    {
      if i == |contas| then None
      else if contas[i].numero == numero then Some(contas[i])
      else BuscaDesde(numero, i + 1)
    }

    /** `findContasByClienteAndTipo`: the stored accounts of `cliente` of type `tipo`, in storage order. */
    function FindContasByClienteAndTipo(cliente: Cliente, tipo: TipoConta): (r: seq<Conta>)
      reads this, contas
      ensures var ix := Indices(Registros(), cliente, tipo);
              |r| == |ix| && forall k :: 0 <= k < |ix| ==> r[k] == contas[ix[k]]
    {
      var ix, cs := Indices(Registros(), cliente, tipo), contas;
      seq(|ix|, k requires 0 <= k < |ix| => cs[ix[k]])
    }

    /**
     * `save`: a new entity is appended; an entity already stored is managed,
     * so its changed fields are already what the store holds.
     */
    method Save(conta: Conta) returns (salva: Conta)
      requires Valid()
      modifies this
      ensures Valid()
      ensures salva == conta
      ensures contas == if conta in old(contas) then old(contas) else old(contas) + [conta]
      ensures Registros() == if conta in old(contas) then old(Registros()) else old(Registros()) + [conta.Dados()]
    {
      if conta !in contas {
        contas := contas + [conta];
      }
      salva := conta;
    }
  }

  class ClienteRepository {
    /** The registered customers, by document. */
    var clientes: map<string, Cliente>

    constructor (clientes: map<string, Cliente>)
      ensures this.clientes == clientes
    {
      this.clientes := clientes;
    }

    /** `findByDocumento`: the customer registered under this document, if any. */
    function FindByDocumento(documento: string): (r: Option<Cliente>)
      reads this
      ensures r.Some? <==> documento in clientes
      ensures r.Some? ==> r.value == clientes[documento]
    {
      if documento in clientes then Some(clientes[documento]) else None
    }
  }
}
