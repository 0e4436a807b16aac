/**
 * The entities of the bank ledger: customers, account kinds, the account
 * entity (whose balance is changed in place) and its value snapshot, and the
 * error outcomes of the services.
 */
module Dominio {

  /** A Java `long`: every account number is a 64-bit signed integer. */
  const MIN_LONG: int := -0x8000_0000_0000_0000
  const MAX_LONG: int := 0x7FFF_FFFF_FFFF_FFFF
  type Long = x: int | MIN_LONG <= x <= MAX_LONG

  datatype Option<T> = None | Some(value: T)

  /** The customer categories: individual (PF) and organization (PJ). */
  datatype TipoCliente = PF | PJ

  datatype TipoConta = ContaCorrente | ContaPoupanca | ContaInvestimento

  /**
   * A customer, read-only to the services. A customer built without a
   * category has none, which the services can meet (`abrirContaPoupanca`
   * tests it null-safely, `getOperacaoTipoCliente` dereferences it), hence
   * the `Option`.
   */
  datatype Cliente = Cliente(documento: string, tipo: Option<TipoCliente>)

  /** The value of an account at one moment: what the repository stores. */
  datatype Registro = Registro(numero: Long, tipo: TipoConta, cliente: Cliente, saldo: real)

  /** The exceptions the services raise. */
  datatype Erro =
    | Validacao(mensagem: string)   // ValidacaoException with its message
    | NullPointer                   // dereferencing a customer without a category

  datatype Result<T> = Ok(value: T) | Err(erro: Erro)

  const MSG_CLIENTE_NAO_ENCONTRADO := "Cliente nao encontrado com o CPF informado!"
  const MSG_PJ_SEM_POUPANCA := "Cliente PJ nao pode ter conta poupanca"
  const MSG_CLIENTE_NAO_EXISTE := "Cliente nao existe"
  const MSG_MAIS_DE_UMA_INVESTIMENTO := "Cliente possui mais de uma conta investimento"

  /** The account entity; every field has a setter, the balance is the one the services change. */
  class Conta {
    var numero: Long
    var tipo: TipoConta
    var cliente: Cliente
    var saldo: real

    /** The value currently held by this entity. */
    function Dados(): Registro
      reads this
    {
      Registro(numero, tipo, cliente, saldo)
    }

    constructor (numero: Long, tipo: TipoConta, cliente: Cliente, saldo: real)
      ensures Dados() == Registro(numero, tipo, cliente, saldo)
    {
      this.numero := numero;
      this.tipo := tipo;
      this.cliente := cliente;
      this.saldo := saldo;
    }
  }
}
