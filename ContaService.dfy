/**
 * Opening savings accounts and generating account numbers.
 *
 * The random source of `gerarNumero` is given as the sequence of values its
 * successive `nextLong` calls return; the loop ends because some value of it
 * is not in use.
 */
module ContaService {
  import opened Dominio
  import opened Razao
  import opened Repositorios

  /** Some draw is a number not in use, so the redraw loop ends. */
  predicate TemSorteioLivre(sorteios: seq<Long>, usados: set<Long>)
  {
    exists k :: 0 <= k < |sorteios| && sorteios[k] !in usados
  }

  /** The first draw not in use. */
  function PrimeiroLivre(sorteios: seq<Long>, usados: set<Long>): (n: Long)
    requires TemSorteioLivre(sorteios, usados)
    ensures n !in usados
    ensures exists k :: 0 <= k < |sorteios| && sorteios[k] == n &&
                        forall j :: 0 <= j < k ==> sorteios[j] in usados
    decreases |sorteios|
  {
    if sorteios[0] !in usados then sorteios[0]
    else
      assert TemSorteioLivre(sorteios[1..], usados) by {
        var k :| 0 <= k < |sorteios| && sorteios[k] !in usados;
        assert sorteios[1..][k - 1] == sorteios[k];
      }
      var n := PrimeiroLivre(sorteios[1..], usados);
      assert exists k :: 0 <= k < |sorteios| && sorteios[k] == n &&
                         forall j :: 0 <= j < k ==> sorteios[j] in usados by {
        var k :| 0 <= k < |sorteios[1..]| && sorteios[1..][k] == n &&
                 forall j :: 0 <= j < k ==> sorteios[1..][j] in usados;
        assert sorteios[k + 1] == n;
        forall j | 0 <= j < k + 1 ensures sorteios[j] in usados {
          if j > 0 { assert sorteios[j] == sorteios[1..][j - 1]; }
        }
      }
      n
  }

  /** A draw that is free while every earlier draw is in use is the first free draw. */
  lemma {:induction false} PrimeiroLivreEm(sorteios: seq<Long>, usados: set<Long>, k: nat)
    requires k < |sorteios| && sorteios[k] !in usados
    requires forall j :: 0 <= j < k ==> sorteios[j] in usados
    ensures TemSorteioLivre(sorteios, usados)
    ensures PrimeiroLivre(sorteios, usados) == sorteios[k]
    decreases k
  {
    if k > 0 {
      assert sorteios[1..][k - 1] == sorteios[k];
      PrimeiroLivreEm(sorteios[1..], usados, k - 1);
    }
  }

  /** The effect of `abrirContaPoupanca` on the stored accounts, given the number `gerarNumero` produced. */
  function AbrirPoupancaEfeito(rs: seq<Registro>, clientes: map<string, Cliente>, cpf: string, numero: Long)
    : (r: Result<seq<Registro>>)
    ensures r.Err? ==> r.erro == Validacao(MSG_CLIENTE_NAO_ENCONTRADO) || r.erro == Validacao(MSG_PJ_SEM_POUPANCA)
    ensures r.Ok? ==> |r.value| == |rs| + 1 && Numeros(r.value) == Numeros(rs) + {numero}
  {
    if cpf !in clientes then Err(Validacao(MSG_CLIENTE_NAO_ENCONTRADO))
    else if clientes[cpf].tipo == Some(PJ) then Err(Validacao(MSG_PJ_SEM_POUPANCA))
    else
      var x := Registro(numero, ContaPoupanca, clientes[cpf], 0.0);
      NumerosAcrescentar(rs, x);
      Ok(rs + [x])
  }

  /**
   * Opening fails exactly for an unknown document or an organization; on
   * success it adds one savings account of the customer, with balance 0 and
   * the given number, after the existing ones, which are untouched.
   */
  lemma {:induction false} AbrirPoupancaResultado(rs: seq<Registro>, clientes: map<string, Cliente>, cpf: string, numero: Long)
    ensures var r := AbrirPoupancaEfeito(rs, clientes, cpf, numero);
            (r.Err? <==> cpf !in clientes || clientes[cpf].tipo == Some(PJ)) &&
            (r.Ok? ==> |r.value| == |rs| + 1 && r.value[..|rs|] == rs &&
                       r.value[|rs|] == Registro(numero, ContaPoupanca, clientes[cpf], 0.0))
  {
  }

  /**
   * A successful opening grows the customer's savings-account query by one,
   * the new account last, and leaves every other query unchanged.
   */
  lemma {:induction false} AbrirPoupancaContagem(rs: seq<Registro>, clientes: map<string, Cliente>, cpf: string, numero: Long)
    requires AbrirPoupancaEfeito(rs, clientes, cpf, numero).Ok?
    ensures var rs' := AbrirPoupancaEfeito(rs, clientes, cpf, numero).value;
            var c := clientes[cpf];
            var antes := Indices(rs, c, ContaPoupanca);
            var depois := Indices(rs', c, ContaPoupanca);
            |depois| == |antes| + 1 && depois[..|antes|] == antes &&
            rs'[depois[|antes|]] == Registro(numero, ContaPoupanca, c, 0.0) &&
            forall c', t :: (c', t) != (c, ContaPoupanca) ==> Indices(rs', c', t) == Indices(rs, c', t)
  {
    var c := clientes[cpf];
    var x := Registro(numero, ContaPoupanca, c, 0.0);
    IndicesAcrescentar(rs, x, c, ContaPoupanca);
    forall c', t | (c', t) != (c, ContaPoupanca) ensures Indices(rs + [x], c', t) == Indices(rs, c', t) {
      IndicesAcrescentar(rs, x, c', t);
    }
  }

  /** With a number not in use, a successful opening keeps every ledger invariant. */
  lemma {:induction false} AbrirPoupancaPreserva(rs: seq<Registro>, clientes: map<string, Cliente>, cpf: string, numero: Long)
    requires numero !in Numeros(rs)
    requires AbrirPoupancaEfeito(rs, clientes, cpf, numero).Ok?
    ensures var rs' := AbrirPoupancaEfeito(rs, clientes, cpf, numero).value;
            numero in Numeros(rs') &&
            (NumerosUnicos(rs) ==> NumerosUnicos(rs')) &&
            (UmaInvestimentoPorCliente(rs) ==> UmaInvestimentoPorCliente(rs')) &&
            (PjSemPoupanca(rs) ==> PjSemPoupanca(rs'))
  {
    var x := Registro(numero, ContaPoupanca, clientes[cpf], 0.0);
    AcrescentarPreserva(rs, x);
    assert (rs + [x])[|rs|] == x;
  }

  /** A successful opening keeps every stored owner registered: the new account's owner is the directory's customer. */
  lemma {:induction false} AbrirPoupancaDonos(rs: seq<Registro>, clientes: map<string, Cliente>, cpf: string, numero: Long)
    requires DiretorioValido(clientes) && DonosRegistrados(rs, clientes)
    requires AbrirPoupancaEfeito(rs, clientes, cpf, numero).Ok?
    ensures DonosRegistrados(AbrirPoupancaEfeito(rs, clientes, cpf, numero).value, clientes)
  {
    AcrescentarDonos(rs, Registro(numero, ContaPoupanca, clientes[cpf], 0.0), clientes);
  }

  class ContaService {
    const contaRepository: ContaRepository
    const clienteRepository: ClienteRepository

    constructor (contaRepository: ContaRepository, clienteRepository: ClienteRepository)
      ensures this.contaRepository == contaRepository && this.clienteRepository == clienteRepository
    {
      this.contaRepository := contaRepository;
      this.clienteRepository := clienteRepository;
    }

    /**
     * `gerarNumero`: redraw until the repository has no account with the
     * number. Only reads the repository.
     */
    static method GerarNumero(repository: ContaRepository, sorteios: seq<Long>) returns (numero: Long)
      requires TemSorteioLivre(sorteios, Numeros(repository.Registros()))
      ensures repository.FindByNumero(numero).None?
      ensures numero == PrimeiroLivre(sorteios, Numeros(repository.Registros()))
    {
      ghost var usados := Numeros(repository.Registros());
      ghost var livre :| 0 <= livre < |sorteios| && sorteios[livre] !in usados;
      var i := 0;
      numero := sorteios[i];
      while repository.FindByNumero(numero).Some?
        invariant 0 <= i <= livre && numero == sorteios[i]
        invariant forall j :: 0 <= j < i ==> sorteios[j] in usados
        decreases livre - i
      {
        i := i + 1;
        numero := sorteios[i];
      }
      PrimeiroLivreEm(sorteios, usados, i);
    }

    /**
     * `abrirContaPoupanca`: look the customer up, refuse an organization,
     * and store a new savings account with balance 0 and a fresh number.
     */
    method AbrirContaPoupanca(cpf: string, sorteios: seq<Long>) returns (r: Result<Conta>)
      requires contaRepository.Valid()
      requires TemSorteioLivre(sorteios, Numeros(contaRepository.Registros()))
      modifies contaRepository
      ensures contaRepository.Valid()
      ensures var efeito := AbrirPoupancaEfeito(old(contaRepository.Registros()), clienteRepository.clientes, cpf,
                                                old(PrimeiroLivre(sorteios, Numeros(contaRepository.Registros()))));
              (r.Ok? <==> efeito.Ok?) &&
              (r.Err? ==> r.erro == efeito.erro && contaRepository.contas == old(contaRepository.contas)) &&
              (r.Ok? ==> fresh(r.value) && contaRepository.contas == old(contaRepository.contas) + [r.value] &&
                         contaRepository.Registros() == efeito.value)
      ensures old(Invariantes(contaRepository.Registros())) ==> Invariantes(contaRepository.Registros())
    {
      ghost var antes := contaRepository.Registros();
      var clienteOpt := clienteRepository.FindByDocumento(cpf);
      if clienteOpt.None? {
        return Err(Validacao(MSG_CLIENTE_NAO_ENCONTRADO));
      }
      var cliente := clienteOpt.value;
      if cliente.tipo == Some(PJ) {
        return Err(Validacao(MSG_PJ_SEM_POUPANCA));
      }
      var numero := GerarNumero(contaRepository, sorteios);
      var contaPoupanca := new Conta(numero, ContaPoupanca, cliente, 0.0);
      assert contaPoupanca !in contaRepository.contas;
      var salva := contaRepository.Save(contaPoupanca);
      assert contaRepository.Registros() == antes + [contaPoupanca.Dados()];
      assert AbrirPoupancaEfeito(antes, clienteRepository.clientes, cpf, numero) == Ok(antes + [contaPoupanca.Dados()]);
      AbrirPoupancaPreserva(antes, clienteRepository.clientes, cpf, numero);
      return Ok(salva);
    }
  }
}
