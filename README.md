# Bank ledger: savings accounts, account numbers and investments

This project models the account-ledger core of the `banco-web` banking
back-office. It covers three parts:

- **Opening a savings account** (`ContaService.abrirContaPoupanca`). The
  customer is looked up by document. An organization (PJ) is refused.
  Otherwise a savings account with balance 0 and a fresh number is built
  and saved.
- **Generating account numbers** (`ContaService.gerarNumero`). A random
  `long` is drawn again until no stored account has it.
- **Investing** (`InvestimentoService`). `investir` resolves the customer.
  It then finds their single investment account, creating one with
  balance 0 and a fresh number if there is none. It refuses a customer
  with more than one. It applies the contribution of the strategy for the
  customer's category (`getOperacaoTipoCliente`) and saves. `render`
  applies the strategy's monthly yield to every investment account, in
  place.
- **The individual (PF) strategy** (`InvestimentoOperacaoPF`). A
  contribution adds the amount. The yield multiplies the balance by the
  exact decimal 1.01.

The model has these pieces:

- **Entities.** `Dominio` holds the entities. `Conta` is a class, because
  the strategies change its balance in place; its value at one moment is a
  `Registro`. A `Cliente` is a value: a document and a category. The
  category is an `Option`: `getTipo()` can return null. `abrirContaPoupanca`
  compares it null-safely (`TipoCliente.PJ.equals(cliente.getTipo())`,
  `ContaService.java` line 25), while `getOperacaoTipoCliente` calls
  `equals` on it (`InvestimentoService.java` line 67), which fails on null.
  An account refers to the customer entity itself (`setCliente(cliente)`,
  `ContaService.java` line 30 and `InvestimentoService.java` line 57), and
  a record holds that customer's value. `DonosRegistrados` states that
  every record's owner is the customer registered under its document.
  All three services keep it. Under it, the owner-and-type query and
  "one investment account per customer" are per document.
- **Repositories.** `Repositorios` holds the two repositories.
  - The account repository keeps the managed `Conta` objects in storage
    order. `save` appends a new entity and leaves an already managed one in
    place.
  - The customer repository is a map from document to customer.
- **Ledger.** `Razao` states the ledger as the sequence of stored records.
  It defines the owner-and-type query, and the invariants the services
  keep:
  - account numbers are unique;
  - a customer has at most one investment account;
  - an organization has no savings account.
- **Services.** Each service method is specified by a pure function of the
  stored records (`AbrirPoupancaEfeito`, `InvestirEfeito`, `Renderizar`).
  Lemmas prove what the source promises about those functions. The
  methods' `ensures` tie the new repository state to the functions.
- **Exact decimals.** `BigDecimal` amounts are exact reals.
- **Random draws.** The random source of `gerarNumero` is a parameter: the
  sequence of values its successive `nextLong` calls return.

Four behaviours of the code are modelled as written:

- `render` stops at the first investment account whose owner has no
  category, keeping the updates already made. Accounts of other types are
  skipped, so their owners' categories never stop it.
- `render` does not save explicitly; the managed entities are changed in
  place.
- No operation checks that an amount is positive.
- A customer without a category makes `getOperacaoTipoCliente` dereference
  null (`Erro.NullPointer`). Its `ValidacaoException` branch cannot be
  reached, because the category enum has only `PF` and `PJ`.

## Model

| member | source | states |
|---|---|---|
| Dominio.Conta.constructor | src/main/java/br/ada/caixa/service/conta/ContaService.java:28-32 | A new account entity holds exactly the number, type, owner and balance it is built with |
| Razao.NumerosAcrescentar | src/main/java/br/ada/caixa/service/conta/ContaService.java:32-33 | Saving a new account adds its number, and only it, to the numbers in use |
| Razao.Indices | src/main/java/br/ada/caixa/service/operacoesbancarias/investimento/InvestimentoService.java:46-48 | The owner-and-type query returns positions of matching stored accounts only, and every matching position is among them |
| Razao.IndicesCrescentes | src/main/java/br/ada/caixa/service/operacoesbancarias/investimento/InvestimentoService.java:46-48 | The query lists the matching accounts in strictly increasing storage order, so each one appears once |
| Razao.IndicesAcrescentar | src/main/java/br/ada/caixa/service/conta/ContaService.java:33 | Saving a new account adds its position, last, to the query for its own owner and type, and changes no other query |
| Razao.DoisIndices | src/main/java/br/ada/caixa/service/operacoesbancarias/investimento/InvestimentoService.java:50-51 | A query with more than one result means two distinct stored accounts of that owner and type |
| Razao.UmaInvestimentoSeIndices | src/main/java/br/ada/caixa/service/operacoesbancarias/investimento/InvestimentoService.java:50-61 | "At most one investment account per customer" holds exactly when every customer's investment query has at most one result (both directions) |
| Razao.IndicesMesmaIdentidade | src/main/java/br/ada/caixa/service/operacoesbancarias/investimento/InvestimentoService.java:34 | Changing only balances leaves every owner-and-type query unchanged |
| Razao.MesmaIdentidadePreserva | src/main/java/br/ada/caixa/service/operacoesbancarias/investimento/InvestimentoOperacaoPF.java:13-22 | Changing only balances leaves the numbers in use unchanged, and each ledger invariant holds after exactly when it held before |
| Razao.AcrescentarPreserva | src/main/java/br/ada/caixa/service/conta/ContaService.java:32-33 | Appending an account with an unused number keeps numbers unique; it keeps the other two invariants unless it is a PJ savings account or a second investment account of its owner |
| Razao.IndicesPorDocumento | src/main/java/br/ada/caixa/service/operacoesbancarias/investimento/InvestimentoService.java:46-48 | When every stored owner is the registered customer of its document, the query for a registered customer finds exactly the accounts of that document and type (both directions) |
| Razao.UmaInvestimentoPorDocumento | src/main/java/br/ada/caixa/service/operacoesbancarias/investimento/InvestimentoService.java:50-61 | When every stored owner is registered, "at most one investment account per customer" is the same as "at most one per document" (both directions) |
| Razao.MesmaIdentidadeDonos | src/main/java/br/ada/caixa/service/operacoesbancarias/investimento/InvestimentoService.java:34 | After a change to balances only, every stored owner is registered exactly when it was before |
| Razao.AcrescentarDonos | src/main/java/br/ada/caixa/service/conta/ContaService.java:30-33 | Appending an account whose owner is the registered customer of its document keeps every stored owner registered |
| Repositorios.ContaRepository.FindByNumero | src/main/java/br/ada/caixa/service/conta/ContaService.java:43 | The lookup finds nothing exactly when no stored account has the number; what it finds is stored and has that number |
| Repositorios.ContaRepository.FindContasByClienteAndTipo | src/main/java/br/ada/caixa/service/operacoesbancarias/investimento/InvestimentoService.java:46-48 | The result is the stored entities at the query's positions, in storage order |
| Repositorios.ContaRepository.Save | src/main/java/br/ada/caixa/service/conta/ContaService.java:33 | A new entity is appended with its current value; an entity already stored leaves the store as it is; no entity is ever stored twice |
| Repositorios.ClienteRepository.FindByDocumento | src/main/java/br/ada/caixa/service/conta/ContaService.java:23 | The customer is found exactly when the document is registered, and it is the one registered under it |
| ContaService.PrimeiroLivre | src/main/java/br/ada/caixa/service/conta/ContaService.java:41-43 | The first draw not in use: it is unused, and every earlier draw is in use |
| ContaService.PrimeiroLivreEm | src/main/java/br/ada/caixa/service/conta/ContaService.java:41-43 | An unused draw whose earlier draws are all in use is the first unused draw |
| ContaService.ContaService.GerarNumero | src/main/java/br/ada/caixa/service/conta/ContaService.java:38-46 | The redraw loop returns the first drawn number that `findByNumero` does not find, and only reads the repository |
| ContaService.AbrirPoupancaEfeito | src/main/java/br/ada/caixa/service/conta/ContaService.java:22-36 | The stored records after `abrirContaPoupanca` with the generated number: a failure is one of the two messages of the source (unknown document, PJ customer); a success adds exactly one record, and the numbers in use become the old ones plus the generated number |
| ContaService.AbrirPoupancaResultado | src/main/java/br/ada/caixa/service/conta/ContaService.java:22-36 | Opening fails exactly for an unknown document or a PJ customer; on success it appends one savings account of that customer with balance 0 and the generated number, and leaves the existing accounts as they were |
| ContaService.AbrirPoupancaContagem | src/test/java/br/ada/caixa/controller/OperacoesBancariasControllerTest.java:228-239 | A successful opening grows the customer's savings query by one, with the new zero-balance account at the old count, and leaves every other query unchanged |
| ContaService.AbrirPoupancaPreserva | src/main/java/br/ada/caixa/service/conta/ContaService.java:32-33 | With a number not in use, a successful opening keeps unique numbers and the other ledger invariants |
| ContaService.AbrirPoupancaDonos | src/main/java/br/ada/caixa/service/conta/ContaService.java:23-33 | The new savings account's owner is the customer found in the directory, so a successful opening keeps every stored owner registered |
| ContaService.ContaService.AbrirContaPoupanca | src/main/java/br/ada/caixa/service/conta/ContaService.java:22-36 | Fails with the source's message and stores nothing for an unknown document or a PJ; otherwise stores one fresh entity, and the stored records become those of `AbrirPoupancaEfeito`; the invariants are kept |
| InvestimentoOperacaoPF.Aporte | src/main/java/br/ada/caixa/service/operacoesbancarias/investimento/InvestimentoOperacaoPF.java:16 | A PF contribution raises the balance by exactly the amount |
| InvestimentoOperacaoPF.Rendimento | src/main/java/br/ada/caixa/service/operacoesbancarias/investimento/InvestimentoOperacaoPF.java:19-22 | The yield adds exactly 1% of the balance; it never decreases a non-negative balance; the result is zero exactly when the balance was |
| InvestimentoOperacaoPF.AporteSemRendimento | src/main/java/br/ada/caixa/service/operacoesbancarias/investimento/InvestimentoOperacaoPF.java:13-17 | A contribution changes the balance by exactly the amount, with no yield, and contributing the negated amount undoes it |
| InvestimentoOperacaoPF.AportesSucessivos | src/main/java/br/ada/caixa/service/operacoesbancarias/investimento/InvestimentoOperacaoPF.java:16 | Two contributions a and b leave balance + a + b, the same as one contribution of a + b |
| InvestimentoOperacaoPF.Executar | src/main/java/br/ada/caixa/service/operacoesbancarias/investimento/InvestimentoOperacaoPF.java:13-17 | The account's balance becomes the old balance plus the amount; number, type and owner are unchanged |
| InvestimentoOperacaoPF.Render | src/main/java/br/ada/caixa/service/operacoesbancarias/investimento/InvestimentoOperacaoPF.java:19-22 | The account's balance becomes the old balance times 1.01; number, type and owner are unchanged |
| InvestimentoOperacao.Aporte | src/main/java/br/ada/caixa/service/operacoesbancarias/investimento/InvestimentoService.java:34 | The contribution of the chosen strategy: PF raises the balance by exactly the amount; PJ is the organization strategy's own contribution |
| InvestimentoOperacao.Rendimento | src/main/java/br/ada/caixa/service/operacoesbancarias/investimento/InvestimentoService.java:41 | The yield of the chosen strategy: PF multiplies the balance by 1.01 and never lowers a non-negative one; PJ is the organization strategy's own yield |
| InvestimentoOperacao.Executar | src/main/java/br/ada/caixa/service/operacoesbancarias/investimento/InvestimentoService.java:34 | The chosen strategy's contribution changes only the balance |
| InvestimentoOperacao.Render | src/main/java/br/ada/caixa/service/operacoesbancarias/investimento/InvestimentoService.java:41 | The chosen strategy's yield step changes only the balance |
| InvestimentoService.GetOperacaoTipoCliente | src/main/java/br/ada/caixa/service/operacoesbancarias/investimento/InvestimentoService.java:66-74 | PF selects exactly the PF strategy and PJ exactly the PJ strategy (both directions); a customer without a category is an error (null dereference) |
| InvestimentoService.InvestirEfeito | src/main/java/br/ada/caixa/service/operacoesbancarias/investimento/InvestimentoService.java:30-64 | The stored records and the investment account's position after `investir` (with `getSingleContaInvestimento`). A failure is one of the source's errors: unknown customer, more than one investment account, or the null dereference. A success adds at most one record, and the position holds an investment account of the customer |
| InvestimentoService.InvestirResultado | src/main/java/br/ada/caixa/service/operacoesbancarias/investimento/InvestimentoService.java:30-36 | Investing fails exactly for an unknown document, more than one investment account, or a customer without a category. On success the customer has exactly one investment account, others untouched; a new one is appended with number from `gerarNumero` and balance = contribution to 0, or the existing one receives the contribution in place |
| InvestimentoService.InvestirPreserva | src/main/java/br/ada/caixa/service/operacoesbancarias/investimento/InvestimentoService.java:45-64 | With a number not in use, a successful investment keeps unique numbers, at most one investment account per customer, and no PJ savings account |
| InvestimentoService.InvestirDonos | src/main/java/br/ada/caixa/service/operacoesbancarias/investimento/InvestimentoService.java:31-35 | A successful investment keeps every stored owner registered |
| InvestimentoService.InvestirPorDocumento | src/main/java/br/ada/caixa/service/operacoesbancarias/investimento/InvestimentoService.java:45-62 | With every stored owner registered, investing creates an account exactly when no investment account of that document is stored, and the account used belongs to the document |
| InvestimentoService.InvestirDuasVezes | src/main/java/br/ada/caixa/service/operacoesbancarias/investimento/InvestimentoService.java:60-61 | A second investment by the same customer reuses the position of the first, creates nothing, and applies only its own contribution to that account |
| InvestimentoService.InvestirDuasVezesPF | src/main/java/br/ada/caixa/service/operacoesbancarias/investimento/InvestimentoService.java:33-35 | For an individual, two investments of a and b leave the account's prior balance (0 for a new one) plus a + b |
| InvestimentoService.InvestirPJNovaConta | src/test/java/br/ada/caixa/controller/OperacoesBancariasControllerTest.java:209-224 | An organization without an investment account that invests 50 gets one new account with balance 50, given the organization strategy's contribution of 50 to a zero balance is 50 |
| InvestimentoService.RenderPasso | src/main/java/br/ada/caixa/service/operacoesbancarias/investimento/InvestimentoService.java:40-41 | One yield step fails exactly for an investment account whose owner has no category; a non-investment account is left as it is; only the balance changes |
| InvestimentoService.Renderizar | src/main/java/br/ada/caixa/service/operacoesbancarias/investimento/InvestimentoService.java:39-43 | The records after `render` and the exception that ended it, if any: one record per stored account, and the only exception is the null dereference of a customer without a category |
| InvestimentoService.RenderizarIdentidade | src/main/java/br/ada/caixa/service/operacoesbancarias/investimento/InvestimentoService.java:39-43 | `render` changes only balances, and leaves every non-investment account as it was |
| InvestimentoService.RenderizarSemFalha | src/main/java/br/ada/caixa/service/operacoesbancarias/investimento/InvestimentoService.java:39-43 | `render` completes exactly when every step succeeds (both directions), and then every account has had its yield step applied exactly once |
| InvestimentoService.RenderizarFalha | src/main/java/br/ada/caixa/service/operacoesbancarias/investimento/InvestimentoService.java:40-41 | When `render` stops, it stops at the first investment account whose owner has no category and raises that error; accounts before it have had their step, it and all after it are untouched |
| InvestimentoService.RenderizarAposFalha | src/main/java/br/ada/caixa/service/operacoesbancarias/investimento/InvestimentoService.java:40-41 | After the exception, no later account is reached |
| InvestimentoService.RenderizarPreserva | src/main/java/br/ada/caixa/service/operacoesbancarias/investimento/InvestimentoService.java:39-43 | `render` keeps the numbers in use and every ledger invariant |
| InvestimentoService.RenderizarDonos | src/main/java/br/ada/caixa/service/operacoesbancarias/investimento/InvestimentoService.java:39-43 | `render` keeps every stored owner registered |
| InvestimentoService.RenderizarPF | src/main/java/br/ada/caixa/service/operacoesbancarias/investimento/InvestimentoOperacaoPF.java:10 | If every investment account belongs to an individual and is non-negative, `render` completes. Each such balance becomes exactly 1.01 times what it was and stays non-negative; no balance decreases; zero stays zero |
| InvestimentoService.InvestimentoService.GetSingleContaInvestimento | src/main/java/br/ada/caixa/service/operacoesbancarias/investimento/InvestimentoService.java:45-64 | Fails exactly when the customer has more than one investment account, with the source's message. Returns the stored one when there is one. Otherwise returns a new, unsaved zero-balance investment account of the customer, with the number `gerarNumero` draws |
| InvestimentoService.InvestimentoService.Investir | src/main/java/br/ada/caixa/service/operacoesbancarias/investimento/InvestimentoService.java:30-36 | Succeeds exactly when `InvestirEfeito` does, and stores exactly its records. On failure nothing changes and the error is the source's. On success the returned entity is the stored investment account: reused, or freshly appended. The invariants are kept |
| InvestimentoService.InvestimentoService.ExecutarESalvar | src/main/java/br/ada/caixa/service/operacoesbancarias/investimento/InvestimentoService.java:34-35 | The strategy's contribution is applied once to the account, which `save` then appends if new or leaves at its position if stored |
| InvestimentoService.InvestimentoService.RenderPosicao | src/main/java/br/ada/caixa/service/operacoesbancarias/investimento/InvestimentoService.java:41 | One loop iteration changes the record at its position to the result of `RenderPasso`, or raises that step's error and changes nothing |
| InvestimentoService.InvestimentoService.Render | src/main/java/br/ada/caixa/service/operacoesbancarias/investimento/InvestimentoService.java:39-43 | The stored entities stay the same and their records and the raised error are exactly `Renderizar` of the records before; the invariants are kept |

## Left out

- HTTP controllers, DTO mapping, Spring wiring and the JPA implementation of the repositories are not modelled. The repositories are abstract object stores.
- `java.util.Random` is not modelled. Its successive `nextLong` values are a parameter, and the service methods require that some draw is unused, so the redraw loop ends. The distribution and the chance of termination are not modelled.
- ContaService.ContaService.AbrirContaPoupanca: requires an unused draw even when it fails before drawing, because the requirement is stated on the whole sequence of draws; it says nothing about a run in which every draw collides.
- InvestimentoService.InvestimentoService.Investir: requires an unused draw even when the customer already has an investment account, for the same reason.
- InvestimentoService.InvestimentoService.GetSingleContaInvestimento: requires an unused draw even when the customer already has one or more investment accounts, where no number is drawn.
- A customer is a value (document and category), and a record holds a copy of it. The service methods do not require or ensure that stored owners are registered (`DonosRegistrados`); the lemmas beside them prove that each service keeps it. Without it, two records of one document with different categories count as two customers.
- `InvestimentoOperacaoPJ` is not part of this model. The organization strategy is a pair of balance functions given to the service (`ImplementacaoPJ`); its only known behaviour is the test of investing 50.
- Customer registration and listing, and the deposit, withdrawal, transfer and balance services are not part of this model.
- Concurrency, transactions and persistence atomicity are not modelled; none appears in the code.
- `BigDecimal` scale, and `equals` versus `compareTo`, are not modelled; amounts are exact reals.
- `render` walks all stored accounts with a type test. The source asks the repository for the investment accounts; that query is taken to return them in storage order, which makes the two walks apply the same steps in the same order.
- `RenderPosicao` is the body of `render`'s loop (line 41), and `ExecutarESalvar` is the last two statements of `investir` (the `executar` call at line 34 and the `save` at line 35). Each is a method of its own, so that the in-place update of one entity is reasoned about separately.
