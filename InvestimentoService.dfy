/**
 * Investing: a customer's contribution goes to their single investment
 * account, created on first use, under the strategy of their category; and
 * the monthly yield is applied to every investment account.
 */
module InvestimentoService {
  import opened Dominio
  import opened Razao
  import opened Repositorios
  import opened InvestimentoOperacao
  import PFOp = InvestimentoOperacaoPF
  import CS = ContaService

  /** `getOperacaoTipoCliente`: the strategy for the customer's category; a customer without one cannot be dispatched. */
  function GetOperacaoTipoCliente(cliente: Cliente): (r: Result<Operacao>)
    ensures r.Ok? <==> cliente.tipo.Some?
    ensures r.Err? ==> r.erro == NullPointer
    ensures cliente.tipo == Some(PF) <==> r == Ok(OperacaoPF)
    ensures cliente.tipo == Some(PJ) <==> r == Ok(OperacaoPJ)
  {
    match cliente.tipo
    case None => Err(NullPointer)
    case Some(PF) => Ok(OperacaoPF)
    case Some(PJ) => Ok(OperacaoPJ)
  }

  /**
   * The effect of `investir` on the stored accounts, given the number
   * `gerarNumero` produces when an account has to be created: the new
   * records and the position of the investment account.
   */
  function InvestirEfeito(rs: seq<Registro>, clientes: map<string, Cliente>, documento: string, valor: real,
                          numero: Long, pj: ImplementacaoPJ): (r: Result<(seq<Registro>, nat)>)
    ensures r.Err? ==> r.erro == Validacao(MSG_CLIENTE_NAO_EXISTE) || r.erro == Validacao(MSG_MAIS_DE_UMA_INVESTIMENTO) ||
                       r.erro == NullPointer
    ensures r.Ok? ==> var (rs', k) := r.value;
                      documento in clientes && (|rs'| == |rs| || |rs'| == |rs| + 1) && k < |rs'| &&
                      rs'[k].tipo == ContaInvestimento && rs'[k].cliente == clientes[documento]
  {
    if documento !in clientes then Err(Validacao(MSG_CLIENTE_NAO_EXISTE))
    else
      var cliente := clientes[documento];
      var ix := Indices(rs, cliente, ContaInvestimento);
      if |ix| > 1 then Err(Validacao(MSG_MAIS_DE_UMA_INVESTIMENTO))
      else
        match GetOperacaoTipoCliente(cliente)
        case Err(e) => Err(e)
        case Ok(op) =>
          if |ix| == 0 then
            Ok((rs + [Registro(numero, ContaInvestimento, cliente, Aporte(op, pj, 0.0, valor))], |rs|))
          else
            var k := ix[0];
            Ok((rs[k := rs[k].(saldo := Aporte(op, pj, rs[k].saldo, valor))], k))
  }

  /** The records `investir` leaves for a customer with a category and at most one investment account. */
  lemma {:induction false} InvestirEfeitoEm(rs: seq<Registro>, clientes: map<string, Cliente>, documento: string, valor: real,
                            numero: Long, pj: ImplementacaoPJ, op: Operacao)
    requires documento in clientes && |Indices(rs, clientes[documento], ContaInvestimento)| <= 1
    requires GetOperacaoTipoCliente(clientes[documento]) == Ok(op)
    ensures var ix := Indices(rs, clientes[documento], ContaInvestimento);
            InvestirEfeito(rs, clientes, documento, valor, numero, pj) ==
            if ix == [] then Ok((rs + [Registro(numero, ContaInvestimento, clientes[documento], Aporte(op, pj, 0.0, valor))], |rs|))
            else Ok((rs[ix[0] := rs[ix[0]].(saldo := Aporte(op, pj, rs[ix[0]].saldo, valor))], ix[0]))
  {
  }

  /**
   * `investir` fails exactly for an unknown document, a customer with more
   * than one investment account, or a customer without a category; on
   * success the customer has exactly one investment account, which received
   * the contribution once: a new one with balance 0 and the given number if
   * there was none, else the existing one. No other account changes.
   */
  lemma {:induction false} InvestirResultado(rs: seq<Registro>, clientes: map<string, Cliente>, documento: string, valor: real,
                          numero: Long, pj: ImplementacaoPJ)
    ensures var r := InvestirEfeito(rs, clientes, documento, valor, numero, pj);
            r.Err? <==> documento !in clientes ||
                        |Indices(rs, clientes[documento], ContaInvestimento)| > 1 ||
                        clientes[documento].tipo.None?
    ensures var r := InvestirEfeito(rs, clientes, documento, valor, numero, pj);
            r.Ok? ==>
              var (rs', k) := r.value;
              var c := clientes[documento];
              var op := GetOperacaoTipoCliente(c).value;
              k < |rs'| && rs'[k].tipo == ContaInvestimento && rs'[k].cliente == c &&
              Indices(rs', c, ContaInvestimento) == [k] &&
              (forall i :: 0 <= i < |rs| && i != k ==> rs'[i] == rs[i]) &&
              (if Indices(rs, c, ContaInvestimento) == [] then
                 k == |rs| && |rs'| == |rs| + 1 && rs'[k] == Registro(numero, ContaInvestimento, c, Aporte(op, pj, 0.0, valor))
               else
                 Indices(rs, c, ContaInvestimento) == [k] && |rs'| == |rs| &&
                 rs'[k] == rs[k].(saldo := Aporte(op, pj, rs[k].saldo, valor)))
  {
    if documento in clientes {
      var c := clientes[documento];
      var ix := Indices(rs, c, ContaInvestimento);
      if |ix| <= 1 && c.tipo.Some? {
        var op := GetOperacaoTipoCliente(c).value;
        if ix == [] {
          var x := Registro(numero, ContaInvestimento, c, Aporte(op, pj, 0.0, valor));
          assert InvestirEfeito(rs, clientes, documento, valor, numero, pj) == Ok((rs + [x], |rs|));
          IndicesAcrescentar(rs, x, c, ContaInvestimento);
          assert (rs + [x])[|rs|] == x;
        } else {
          var k := ix[0];
          var rs' := rs[k := rs[k].(saldo := Aporte(op, pj, rs[k].saldo, valor))];
          assert InvestirEfeito(rs, clientes, documento, valor, numero, pj) == Ok((rs', k));
          assert MesmaIdentidade(rs, rs');
          IndicesMesmaIdentidade(rs, rs', c, ContaInvestimento);
          assert ix == [k];
        }
      }
    }
  }

  /** With a number not in use, a successful `investir` keeps every ledger invariant. */
  lemma {:induction false} InvestirPreserva(rs: seq<Registro>, clientes: map<string, Cliente>, documento: string, valor: real,
                         numero: Long, pj: ImplementacaoPJ)
    requires numero !in Numeros(rs)
    requires InvestirEfeito(rs, clientes, documento, valor, numero, pj).Ok?
    ensures var rs' := InvestirEfeito(rs, clientes, documento, valor, numero, pj).value.0;
            (NumerosUnicos(rs) ==> NumerosUnicos(rs')) &&
            (UmaInvestimentoPorCliente(rs) ==> UmaInvestimentoPorCliente(rs')) &&
            (PjSemPoupanca(rs) ==> PjSemPoupanca(rs'))
  {
    var (rs', k) := InvestirEfeito(rs, clientes, documento, valor, numero, pj).value;
    var c := clientes[documento];
    if Indices(rs, c, ContaInvestimento) == [] {
      assert rs' == rs + [rs'[|rs|]];
      AcrescentarPreserva(rs, rs'[|rs|]);
    } else {
      assert MesmaIdentidade(rs, rs');
      MesmaIdentidadePreserva(rs, rs');
    }
  }

  /** A successful `investir` keeps every stored owner registered. */
  lemma {:induction false} InvestirDonos(rs: seq<Registro>, clientes: map<string, Cliente>, documento: string, valor: real,
                         numero: Long, pj: ImplementacaoPJ)
    requires DiretorioValido(clientes) && DonosRegistrados(rs, clientes)
    requires InvestirEfeito(rs, clientes, documento, valor, numero, pj).Ok?
    ensures DonosRegistrados(InvestirEfeito(rs, clientes, documento, valor, numero, pj).value.0, clientes)
  {
    var rs' := InvestirEfeito(rs, clientes, documento, valor, numero, pj).value.0;
    if Indices(rs, clientes[documento], ContaInvestimento) == [] {
      assert rs' == rs + [rs'[|rs|]];
      AcrescentarDonos(rs, rs'[|rs|], clientes);
    } else {
      assert MesmaIdentidade(rs, rs');
      MesmaIdentidadeDonos(rs, rs', clientes);
    }
  }

  /**
   * With every stored owner registered, `investir` creates an account exactly
   * when no investment account of the document is stored; the account it
   * returns belongs to the document.
   */
  lemma {:induction false} InvestirPorDocumento(rs: seq<Registro>, clientes: map<string, Cliente>, documento: string,
                                valor: real, numero: Long, pj: ImplementacaoPJ)
    requires DiretorioValido(clientes) && DonosRegistrados(rs, clientes)
    requires InvestirEfeito(rs, clientes, documento, valor, numero, pj).Ok?
    ensures var (rs', k) := InvestirEfeito(rs, clientes, documento, valor, numero, pj).value;
            rs'[k].cliente.documento == documento &&
            ((exists i :: 0 <= i < |rs| && rs[i].tipo == ContaInvestimento && rs[i].cliente.documento == documento) <==>
             (|rs'| == |rs| && k < |rs|))
  {
    InvestirResultado(rs, clientes, documento, valor, numero, pj);
    IndicesPorDocumento(rs, clientes, documento, ContaInvestimento);
    var ix := Indices(rs, clientes[documento], ContaInvestimento);
    if ix != [] {
      assert ix[0] in ix;
    }
  }

  /**
   * Investing twice for the same customer reuses the account of the first
   * call, creates nothing, and applies the second contribution to it.
   */
  lemma {:induction false} InvestirDuasVezes(rs: seq<Registro>, clientes: map<string, Cliente>, documento: string, a: real, b: real,
                          n1: Long, n2: Long, pj: ImplementacaoPJ)
    requires InvestirEfeito(rs, clientes, documento, a, n1, pj).Ok?
    ensures var (rs1, k1) := InvestirEfeito(rs, clientes, documento, a, n1, pj).value;
            var r2 := InvestirEfeito(rs1, clientes, documento, b, n2, pj);
            var op := GetOperacaoTipoCliente(clientes[documento]).value;
            r2.Ok? && r2.value.1 == k1 && |r2.value.0| == |rs1| &&
            r2.value.0 == rs1[k1 := rs1[k1].(saldo := Aporte(op, pj, rs1[k1].saldo, b))]
  {
    var (rs1, k1) := InvestirEfeito(rs, clientes, documento, a, n1, pj).value;
    InvestirResultado(rs, clientes, documento, a, n1, pj);
  }

  /**
   * For an individual, the balance after two contributions is the balance
   * before them plus both amounts; an account created by the first starts
   * from 0.
   */
  lemma {:induction false} InvestirDuasVezesPF(rs: seq<Registro>, clientes: map<string, Cliente>, documento: string, a: real, b: real,
                            n1: Long, n2: Long, pj: ImplementacaoPJ)
    requires documento in clientes && clientes[documento].tipo == Some(PF)
    requires |Indices(rs, clientes[documento], ContaInvestimento)| <= 1
    ensures var r1 := InvestirEfeito(rs, clientes, documento, a, n1, pj);
            var ix := Indices(rs, clientes[documento], ContaInvestimento);
            r1.Ok? &&
            var (rs1, k1) := r1.value;
            var r2 := InvestirEfeito(rs1, clientes, documento, b, n2, pj);
            r2.Ok? && r2.value.1 == k1 &&
            r2.value.0[k1].saldo == (if ix == [] then 0.0 else rs[ix[0]].saldo) + a + b
  {
    InvestirResultado(rs, clientes, documento, a, n1, pj);
    InvestirDuasVezes(rs, clientes, documento, a, b, n1, n2, pj);
  }

  /**
   * An organization without an investment account that invests 50 gets a
   * new account with balance 50, given that its strategy's contribution
   * adds 50 to a zero balance.
   */
  lemma {:induction false} InvestirPJNovaConta(rs: seq<Registro>, clientes: map<string, Cliente>, documento: string,
                            numero: Long, pj: ImplementacaoPJ)
    requires documento in clientes && clientes[documento].tipo == Some(PJ)
    requires Indices(rs, clientes[documento], ContaInvestimento) == []
    requires pj.aporte(0.0, 50.0) == 50.0
    ensures var r := InvestirEfeito(rs, clientes, documento, 50.0, numero, pj);
            r.Ok? && r.value.0 == rs + [Registro(numero, ContaInvestimento, clientes[documento], 50.0)]
  {
  }

  /** One step of `render` on one stored account. */
  function RenderPasso(conta: Registro, pj: ImplementacaoPJ): (r: Result<Registro>)
    ensures r.Err? <==> conta.tipo == ContaInvestimento && conta.cliente.tipo.None?
    ensures conta.tipo != ContaInvestimento ==> r == Ok(conta)
    ensures r.Ok? ==> r.value.numero == conta.numero && r.value.tipo == conta.tipo && r.value.cliente == conta.cliente
  {
    if conta.tipo != ContaInvestimento then Ok(conta)
    else
      match GetOperacaoTipoCliente(conta.cliente)
      case Err(e) => Err(e)
      case Ok(op) => Ok(conta.(saldo := Rendimento(op, pj, conta.saldo)))
  }

  /**
   * The effect of `render` on the stored accounts, in storage order: the
   * new records, and the exception that stopped the loop, if any. Accounts
   * after the one that failed are not reached.
   */
  function Renderizar(rs: seq<Registro>, pj: ImplementacaoPJ): (r: (seq<Registro>, Option<Erro>))
    ensures |r.0| == |rs|
    ensures r.1.Some? ==> r.1 == Some(NullPointer)
    decreases |rs|
  {
    if rs == [] then ([], None)
    else
      var n := |rs| - 1;
      var (feitos, falha) := Renderizar(rs[..n], pj);
      if falha.Some? then (feitos + [rs[n]], falha)
      else
        match RenderPasso(rs[n], pj)
        case Err(e) => (feitos + [rs[n]], Some(e))
        case Ok(conta) => (feitos + [conta], None)
  }

  /** `render` changes only balances, and only those of investment accounts. */
  lemma {:induction false} RenderizarIdentidade(rs: seq<Registro>, pj: ImplementacaoPJ)
    ensures MesmaIdentidade(rs, Renderizar(rs, pj).0)
    ensures forall i :: 0 <= i < |rs| && rs[i].tipo != ContaInvestimento ==> Renderizar(rs, pj).0[i] == rs[i]
    decreases |rs|
  {
    if rs != [] {
      RenderizarIdentidade(rs[..|rs| - 1], pj);
    }
  }

  /**
   * `render` completes exactly when every investment account's owner has a
   * category, and then it has applied the owner's yield step exactly once
   * to every investment account.
   */
  lemma {:induction false} RenderizarSemFalha(rs: seq<Registro>, pj: ImplementacaoPJ)
    ensures Renderizar(rs, pj).1.None? <==> forall i :: 0 <= i < |rs| ==> RenderPasso(rs[i], pj).Ok?
    ensures Renderizar(rs, pj).1.None? ==>
            |Renderizar(rs, pj).0| == |rs| &&
            forall i :: 0 <= i < |rs| ==> RenderPasso(rs[i], pj) == Ok(Renderizar(rs, pj).0[i])
    decreases |rs|
  {
    if rs != [] {
      var n := |rs| - 1;
      RenderizarSemFalha(rs[..n], pj);
      RenderizarIdentidade(rs[..n], pj);
      if Renderizar(rs[..n], pj).1.Some? {
        var i :| 0 <= i < n && RenderPasso(rs[..n][i], pj).Err?;
        assert RenderPasso(rs[i], pj).Err?;
      }
    }
  }

  /**
   * `out` and `falha` are what `render` leaves when it stops at position
   * `k`: the accounts before it have had their yield step, the account at
   * `k` is an investment account whose owner has no category, and it and
   * all after it are untouched.
   */
  predicate ParouEm(rs: seq<Registro>, out: seq<Registro>, falha: Option<Erro>, k: int, pj: ImplementacaoPJ)
  {
    0 <= k < |rs| == |out| && RenderPasso(rs[k], pj).Err? && falha == Some(RenderPasso(rs[k], pj).erro) &&
    (forall i :: 0 <= i < k ==> RenderPasso(rs[i], pj) == Ok(out[i])) &&
    (forall i :: k <= i < |rs| ==> out[i] == rs[i])
  }

  /** When `render` stops, it stops at the first account whose step fails. */
  lemma {:induction false} RenderizarFalha(rs: seq<Registro>, pj: ImplementacaoPJ)
    requires Renderizar(rs, pj).1.Some?
    ensures exists k :: ParouEm(rs, Renderizar(rs, pj).0, Renderizar(rs, pj).1, k, pj)
    decreases |rs|
  {
    var n := |rs| - 1;
    var (feitos, falha) := Renderizar(rs[..n], pj);
    RenderizarIdentidade(rs[..n], pj);
    var out := feitos + [rs[n]];
    if falha.Some? {
      RenderizarFalha(rs[..n], pj);
      var k :| ParouEm(rs[..n], feitos, falha, k, pj);
      assert Renderizar(rs, pj) == (out, falha);
      ParouEmEstende(rs, feitos, falha, k, pj);
    } else {
      RenderizarSemFalha(rs[..n], pj);
      assert RenderPasso(rs[n], pj).Err?;
      assert Renderizar(rs, pj) == (out, Some(RenderPasso(rs[n], pj).erro));
      forall i | 0 <= i < n ensures RenderPasso(rs[i], pj) == Ok(out[i]) {
        assert rs[i] == rs[..n][i] && out[i] == feitos[i];
      }
      assert out[n] == rs[n];
      assert ParouEm(rs, out, Some(RenderPasso(rs[n], pj).erro), n, pj);
    }
  }

  /** A stop on all but the last account is a stop on all of them, the last left as it was. */
  lemma {:induction false} ParouEmEstende(rs: seq<Registro>, feitos: seq<Registro>, falha: Option<Erro>, k: int,
                                         pj: ImplementacaoPJ)
    requires rs != [] && ParouEm(rs[..|rs| - 1], feitos, falha, k, pj)
    ensures ParouEm(rs, feitos + [rs[|rs| - 1]], falha, k, pj)
  {
    var n := |rs| - 1;
    var out := feitos + [rs[n]];
    assert rs[k] == rs[..n][k];
    forall i | 0 <= i < k ensures RenderPasso(rs[i], pj) == Ok(out[i]) {
      assert rs[i] == rs[..n][i] && out[i] == feitos[i];
    }
    forall i | k <= i < |rs| ensures out[i] == rs[i] {
      if i < n {
        assert rs[i] == rs[..n][i] && out[i] == feitos[i];
      }
    }
  }

  /** Once `render` has stopped on a prefix, the rest is left as it was. */
  lemma {:induction false} RenderizarAposFalha(p: seq<Registro>, q: seq<Registro>, pj: ImplementacaoPJ)
    requires Renderizar(p, pj).1.Some?
    ensures Renderizar(p + q, pj) == (Renderizar(p, pj).0 + q, Renderizar(p, pj).1)
    decreases |q|
  {
    if q == [] {
      assert p + q == p;
      assert Renderizar(p, pj).0 + q == Renderizar(p, pj).0;
    } else {
      var m := |q| - 1;
      assert (p + q)[..|p + q| - 1] == p + q[..m];
      assert (p + q)[|p + q| - 1] == q[m];
      RenderizarAposFalha(p, q[..m], pj);
      assert (Renderizar(p, pj).0 + q[..m]) + [q[m]] == Renderizar(p, pj).0 + q;
    }
  }

  /**
   * One iteration of `render`'s loop on the records `rs`, of which the first
   * `i` have been rendered: the record at `i` is still the original one; a
   * step that succeeds replaces it, one that fails ends `render` with the
   * records as they are.
   */
  lemma {:induction false} RenderizarAvanca(rs: seq<Registro>, i: nat, pj: ImplementacaoPJ)
    requires i < |rs| && Renderizar(rs[..i], pj).1.None?
    ensures var v := Renderizar(rs[..i], pj).0 + rs[i..];
            |v| == |rs| && v[i] == rs[i] &&
            (RenderPasso(rs[i], pj).Ok? ==>
               Renderizar(rs[..i + 1], pj).1.None? &&
               Renderizar(rs[..i + 1], pj).0 + rs[i + 1..] == v[i := RenderPasso(rs[i], pj).value]) &&
            (RenderPasso(rs[i], pj).Err? ==> Renderizar(rs, pj) == (v, Some(RenderPasso(rs[i], pj).erro)))
  {
    var feitos := Renderizar(rs[..i], pj).0;
    RenderizarIdentidade(rs[..i], pj);
    assert rs[..i + 1][..i] == rs[..i];
    assert rs[..i + 1][i] == rs[i];
    var v := feitos + rs[i..];
    assert v[i] == rs[i];
    if RenderPasso(rs[i], pj).Ok? {
      assert feitos + [RenderPasso(rs[i], pj).value] + rs[i + 1..] == v[i := RenderPasso(rs[i], pj).value];
    } else {
      assert rs == rs[..i + 1] + rs[i + 1..];
      RenderizarAposFalha(rs[..i + 1], rs[i + 1..], pj);
      assert feitos + [rs[i]] + rs[i + 1..] == v;
    }
  }

  /** `render` keeps every ledger invariant. */
  lemma {:induction false} RenderizarPreserva(rs: seq<Registro>, pj: ImplementacaoPJ)
    ensures Numeros(Renderizar(rs, pj).0) == Numeros(rs)
    ensures Invariantes(rs) ==> Invariantes(Renderizar(rs, pj).0)
  {
    RenderizarIdentidade(rs, pj);
    MesmaIdentidadePreserva(rs, Renderizar(rs, pj).0);
  }

  /** `render` keeps every stored owner registered. */
  lemma {:induction false} RenderizarDonos(rs: seq<Registro>, pj: ImplementacaoPJ, clientes: map<string, Cliente>)
    ensures DonosRegistrados(rs, clientes) ==> DonosRegistrados(Renderizar(rs, pj).0, clientes)
  {
    RenderizarIdentidade(rs, pj);
    MesmaIdentidadeDonos(rs, Renderizar(rs, pj).0, clientes);
  }

  /**
   * When every investment account belongs to an individual and has a
   * non-negative balance, `render` completes, each such balance becomes
   * exactly 1.01 times what it was, none decreases and a zero stays zero.
   */
  lemma {:induction false} RenderizarPF(rs: seq<Registro>, pj: ImplementacaoPJ)
    requires forall i :: 0 <= i < |rs| && rs[i].tipo == ContaInvestimento ==>
                         rs[i].cliente.tipo == Some(PF) && rs[i].saldo >= 0.0
    ensures Renderizar(rs, pj).1.None?
    ensures |Renderizar(rs, pj).0| == |rs|
    ensures forall i :: 0 <= i < |rs| ==>
              var s := Renderizar(rs, pj).0[i].saldo;
              s >= rs[i].saldo && (rs[i].saldo == 0.0 ==> s == 0.0) &&
              (rs[i].tipo == ContaInvestimento ==> s >= 0.0 && s == rs[i].saldo * PFOp.RENDIMENTO_INVESTIMENTO)
  {
    RenderizarSemFalha(rs, pj);
    RenderizarIdentidade(rs, pj);
  }

  class InvestimentoService {
    const operacaoPJ: ImplementacaoPJ
    const contaRepository: ContaRepository
    const clienteRepository: ClienteRepository

    constructor (operacaoPJ: ImplementacaoPJ, contaRepository: ContaRepository, clienteRepository: ClienteRepository)
      ensures this.operacaoPJ == operacaoPJ
      ensures this.contaRepository == contaRepository && this.clienteRepository == clienteRepository
    {
      this.operacaoPJ := operacaoPJ;
      this.contaRepository := contaRepository;
      this.clienteRepository := clienteRepository;
    }

    /**
     * `getSingleContaInvestimento`: the customer's investment account, or a
     * new unsaved one with balance 0 and a fresh number if there is none;
     * more than one is an error.
     */
    method GetSingleContaInvestimento(cliente: Cliente, sorteios: seq<Long>) returns (r: Result<Conta>)
      requires CS.TemSorteioLivre(sorteios, Numeros(contaRepository.Registros()))
      ensures r.Err? <==> |Indices(old(contaRepository.Registros()), cliente, ContaInvestimento)| > 1
      ensures r.Err? ==> r.erro == Validacao(MSG_MAIS_DE_UMA_INVESTIMENTO)
      ensures var ix := Indices(old(contaRepository.Registros()), cliente, ContaInvestimento);
              |ix| == 1 ==> r == Ok(contaRepository.contas[ix[0]])
      ensures |Indices(old(contaRepository.Registros()), cliente, ContaInvestimento)| == 0 ==>
              r.Ok? && fresh(r.value) && r.value !in contaRepository.contas &&
              r.value.Dados() == Registro(old(CS.PrimeiroLivre(sorteios, Numeros(contaRepository.Registros()))),
                                          ContaInvestimento, cliente, 0.0)
    {
      ghost var ix := Indices(contaRepository.Registros(), cliente, ContaInvestimento);
      var contas := contaRepository.FindContasByClienteAndTipo(cliente, ContaInvestimento);
      assert |contas| == |ix|;
      if |contas| > 1 {
        return Err(Validacao(MSG_MAIS_DE_UMA_INVESTIMENTO));
      }
      if |contas| == 0 {
        var numero := CS.ContaService.GerarNumero(contaRepository, sorteios);
        var contaInvestimento := new Conta(numero, ContaInvestimento, cliente, 0.0);
        assert contaInvestimento !in contaRepository.contas;
        return Ok(contaInvestimento);
      }
      assert contas[0] == contaRepository.contas[ix[0]];
      return Ok(contas[0]);
    }

    /**
     * `investir`: resolve the customer, find or create their investment
     * account, apply the contribution of their strategy, and save it.
     */
    method Investir(documentoCliente: string, valor: real, sorteios: seq<Long>) returns (r: Result<Conta>)
      requires contaRepository.Valid()
      requires CS.TemSorteioLivre(sorteios, Numeros(contaRepository.Registros()))
      modifies contaRepository, contaRepository.contas
      ensures contaRepository.Valid()
      ensures var efeito := InvestirEfeito(old(contaRepository.Registros()), clienteRepository.clientes, documentoCliente,
                                           valor, old(CS.PrimeiroLivre(sorteios, Numeros(contaRepository.Registros()))),
                                           operacaoPJ);
              (r.Ok? <==> efeito.Ok?) &&
              (r.Err? ==> r.erro == efeito.erro && contaRepository.contas == old(contaRepository.contas) &&
                          contaRepository.Registros() == old(contaRepository.Registros())) &&
              (r.Ok? ==> contaRepository.Registros() == efeito.value.0 &&
                         efeito.value.1 < |contaRepository.contas| &&
                         r.value == contaRepository.contas[efeito.value.1] &&
                         (contaRepository.contas == old(contaRepository.contas) ||
                          (fresh(r.value) && contaRepository.contas == old(contaRepository.contas) + [r.value])))
      ensures old(Invariantes(contaRepository.Registros())) ==> Invariantes(contaRepository.Registros())
    {
      ghost var antes := contaRepository.Registros();
      ghost var numero := CS.PrimeiroLivre(sorteios, Numeros(antes));
      var clienteOpt := clienteRepository.FindByDocumento(documentoCliente);
      if clienteOpt.None? {
        return Err(Validacao(MSG_CLIENTE_NAO_EXISTE));
      }
      var cliente := clienteOpt.value;
      ghost var ix := Indices(antes, cliente, ContaInvestimento);
      var single := GetSingleContaInvestimento(cliente, sorteios);
      if single.Err? {
        return Err(single.erro);
      }
      var contaInvestimento := single.value;
      var operacao := GetOperacaoTipoCliente(cliente);
      if operacao.Err? {
        return Err(operacao.erro);
      }
      ghost var contasAntes := contaRepository.contas;
      ghost var posicao: nat := if |ix| == 0 then |antes| else ix[0];
      assert |ix| == 0 ==> contaInvestimento !in contasAntes;
      assert |ix| != 0 ==> posicao < |contasAntes| && contasAntes[posicao] == contaInvestimento;
      var salva := ExecutarESalvar(operacao.value, contaInvestimento, valor);
      ghost var depois := if |ix| == 0 then antes + [contaInvestimento.Dados()] else antes[ix[0] := contaInvestimento.Dados()];
      assert posicao < |contaRepository.contas| && contaRepository.contas[posicao] == contaInvestimento;
      assert contaRepository.Registros() == depois;
      InvestirEfeitoEm(antes, clienteRepository.clientes, documentoCliente, valor, numero, operacaoPJ, operacao.value);
      InvestirPreserva(antes, clienteRepository.clientes, documentoCliente, valor, numero, operacaoPJ);
      return Ok(salva);
    }

    /**
     * The last two steps of `investir`: the strategy's `executar` on the
     * account, then `save`, which appends a new account and leaves a
     * stored one where it is.
     */
    method ExecutarESalvar(op: Operacao, conta: Conta, valor: real) returns (salva: Conta)
      requires contaRepository.Valid()
      modifies conta, contaRepository
      ensures contaRepository.Valid() && salva == conta
      ensures conta.Dados() == old(conta.Dados()).(saldo := Aporte(op, operacaoPJ, old(conta.saldo), valor))
      ensures conta !in old(contaRepository.contas) ==>
                contaRepository.contas == old(contaRepository.contas) + [conta] &&
                contaRepository.Registros() == old(contaRepository.Registros()) + [conta.Dados()]
      ensures forall k :: 0 <= k < |old(contaRepository.contas)| && old(contaRepository.contas)[k] == conta ==>
                contaRepository.contas == old(contaRepository.contas) &&
                contaRepository.Registros() == old(contaRepository.Registros())[k := conta.Dados()]
    {
      Executar(op, operacaoPJ, conta, valor);
      salva := contaRepository.Save(conta);
    }

    /**
     * The body of `render`'s loop for the stored account at position `i`:
     * an investment account gets its owner's yield step, any other account
     * is left alone. Changes that account and nothing else.
     */
    method RenderPosicao(i: nat) returns (falha: Option<Erro>)
      requires contaRepository.Valid() && i < |contaRepository.contas|
      modifies contaRepository.contas[i]
      ensures var passo := RenderPasso(old(contaRepository.Registros())[i], operacaoPJ);
              (falha.Some? <==> passo.Err?) &&
              (passo.Err? ==> falha == Some(passo.erro) &&
                              contaRepository.Registros() == old(contaRepository.Registros())) &&
              (passo.Ok? ==> contaRepository.Registros() == old(contaRepository.Registros())[i := passo.value])
    {
      var conta := contaRepository.contas[i];
      if conta.tipo == ContaInvestimento {
        var operacao := GetOperacaoTipoCliente(conta.cliente);
        if operacao.Err? {
          return Some(operacao.erro);
        }
        InvestimentoOperacao.Render(operacao.value, operacaoPJ, conta);
        forall j | 0 <= j < |contaRepository.contas| && j != i ensures contaRepository.contas[j] != conta {
        }
      }
      return None;
    }

    /**
     * `render`: apply the owner's yield step to every investment account, in
     * place and in storage order; an investment account whose owner has no
     * category ends the loop with that exception.
     */
    method Render() returns (falha: Option<Erro>)
      requires contaRepository.Valid()
      modifies contaRepository.contas
      ensures contaRepository.contas == old(contaRepository.contas)
      ensures (contaRepository.Registros(), falha) == Renderizar(old(contaRepository.Registros()), operacaoPJ)
      ensures old(Invariantes(contaRepository.Registros())) ==> Invariantes(contaRepository.Registros())
    {
      ghost var antes := contaRepository.Registros();
      var i := 0;
      falha := None;
      while i < |contaRepository.contas| && falha.None?
        invariant 0 <= i <= |contaRepository.contas| == |antes|
        invariant contaRepository.contas == old(contaRepository.contas)
        invariant falha.None? ==> Renderizar(antes[..i], operacaoPJ).1.None? &&
                                  contaRepository.Registros() == Renderizar(antes[..i], operacaoPJ).0 + antes[i..]
        invariant falha.Some? ==> (contaRepository.Registros(), falha) == Renderizar(antes, operacaoPJ)
        decreases |antes| - i, if falha.None? then 1 else 0
      {
        ghost var v := contaRepository.Registros();
        RenderizarAvanca(antes, i, operacaoPJ);
        assert v[i] == antes[i];
        falha := RenderPosicao(i);
        if falha.None? {
          assert contaRepository.Registros() == v[i := RenderPasso(antes[i], operacaoPJ).value];
          i := i + 1;
        } else {
          assert RenderPasso(antes[i], operacaoPJ).Err? && contaRepository.Registros() == v;
        }
      }
      if falha.None? {
        assert antes[..i] == antes && antes[i..] == [];
        assert Renderizar(antes, operacaoPJ).0 + [] == Renderizar(antes, operacaoPJ).0;
      }
      RenderizarPreserva(antes, operacaoPJ);
    }
  }
}
