/**
 * The investment strategies as one variant, and the dispatch of
 * `executar` and `render` to the strategy chosen for a customer.
 */
module InvestimentoOperacao {
  import opened Dominio
  import PFOp = InvestimentoOperacaoPF

  /** The two strategies: the individual one and the organization one. */
  datatype Operacao = OperacaoPF | OperacaoPJ

  /**
   * The organization strategy's implementation is not part of this model;
   * it is given as the two balance transformations it performs.
   */
  datatype ImplementacaoPJ = ImplementacaoPJ(aporte: (real, real) -> real, rendimento: real -> real)

  /** The balance after a contribution under strategy `op`. */
  function Aporte(op: Operacao, pj: ImplementacaoPJ, saldo: real, valor: real): (r: real)
    ensures op == OperacaoPF ==> r - saldo == valor
    ensures op == OperacaoPJ ==> r == pj.aporte(saldo, valor)
  {
    match op
    case OperacaoPF => PFOp.Aporte(saldo, valor)
    case OperacaoPJ => pj.aporte(saldo, valor)
  }

  /** The balance after one month's yield under strategy `op`. */
  function Rendimento(op: Operacao, pj: ImplementacaoPJ, saldo: real): (r: real)
    ensures op == OperacaoPF ==> r == saldo * PFOp.RENDIMENTO_INVESTIMENTO && (saldo >= 0.0 ==> r >= saldo)
    ensures op == OperacaoPJ ==> r == pj.rendimento(saldo)
  {
    match op
    case OperacaoPF => PFOp.Rendimento(saldo)
    case OperacaoPJ => pj.rendimento(saldo)
  }

  /** `executar` of the chosen strategy: only the balance changes. */
  method Executar(op: Operacao, pj: ImplementacaoPJ, conta: Conta, valor: real)
    modifies conta
    ensures conta.Dados() == old(conta.Dados()).(saldo := Aporte(op, pj, old(conta.saldo), valor))
  {
    match op
    case OperacaoPF => PFOp.Executar(conta, valor);
    case OperacaoPJ => conta.saldo := pj.aporte(conta.saldo, valor);
  }

  /** `render` of the chosen strategy: only the balance changes. */
  method Render(op: Operacao, pj: ImplementacaoPJ, conta: Conta)
    modifies conta
    ensures conta.Dados() == old(conta.Dados()).(saldo := Rendimento(op, pj, old(conta.saldo)))
  {
    match op
    case OperacaoPF => PFOp.Render(conta);
    case OperacaoPJ => conta.saldo := pj.rendimento(conta.saldo);
  }
}
