/**
 * The investment strategy for individual (PF) customers: a contribution adds
 * the amount to the balance, and the monthly yield multiplies the balance by
 * exactly 1.01.
 */
module InvestimentoOperacaoPF {
  import opened Dominio

  /** The yield factor, the decimal 1.01 exactly (a 1% monthly yield). */
  const RENDIMENTO_INVESTIMENTO: real := 1.01

  /** The balance after contributing `valor`. No yield is applied at contribution time. */
  function Aporte(saldo: real, valor: real): (r: real)
    ensures r - saldo == valor
  {
    saldo + valor
  }

  /** The balance after one month's yield. */
  function Rendimento(saldo: real): (r: real)
    ensures saldo >= 0.0 ==> r >= saldo
    ensures r == 0.0 <==> saldo == 0.0
    ensures r - saldo == saldo / 100.0
  {
    saldo * RENDIMENTO_INVESTIMENTO
  }

  /** A contribution changes the balance by exactly the amount contributed, and undoing it restores the balance. */
  lemma {:induction false} AporteSemRendimento(saldo: real, valor: real)
    ensures Aporte(saldo, valor) - saldo == valor
    ensures Aporte(Aporte(saldo, valor), -valor) == saldo
  {
  }

  /** Two contributions leave the balance plus both amounts: the same as one contribution of their sum. */
  lemma {:induction false} AportesSucessivos(saldo: real, a: real, b: real)
    ensures Aporte(Aporte(saldo, a), b) == saldo + a + b
    ensures Aporte(Aporte(saldo, a), b) == Aporte(saldo, a + b)
  {
  }

  /** `executar`: add the contribution to the account's balance, in place. */
  method Executar(contaInvestimento: Conta, valor: real)
    modifies contaInvestimento
    ensures contaInvestimento.Dados() ==
            old(contaInvestimento.Dados()).(saldo := Aporte(old(contaInvestimento.saldo), valor))
  {
    contaInvestimento.saldo := Aporte(contaInvestimento.saldo, valor);
  }

  /** `render`: apply one month's yield to the account's balance, in place. */
  method Render(contaInvestimento: Conta)
    modifies contaInvestimento
    ensures contaInvestimento.Dados() ==
            old(contaInvestimento.Dados()).(saldo := Rendimento(old(contaInvestimento.saldo)))
  {
    contaInvestimento.saldo := Rendimento(contaInvestimento.saldo);
  }
}
