# Leon's Cupcake: ordering, delivery and registration rules in Dafny

This project models the business rules of the Leon's Cupcake bakery
application: a Flask backend with SQLAlchemy models and an Ionic/Angular
client. It covers the following parts.

- **Orders** (`Pedido` in `backend/models/pedido.py`):
  - the eight order statuses and the guard predicates on them;
  - the money rules (subtotal, delivery fee, discount, total);
  - adding, merging and removing items;
  - status updates, payment, cancellation (which gives the stock back) and rating;
  - the `LCC-<year>-<NNNNNN>` order-number generator.
- **Order items** (`ItemPedido`). The class is defined twice, in
  `backend/models/pedido.py` and `backend/models/item_pedido.py`. The package
  `__init__` exports the second. The model has one item type with the methods
  of both, and where the two differ it follows `item_pedido.py` by choice.
  This is not the class the order code creates: `Pedido.adicionar_item`
  (`pedido.py:211`) and `pedido_controller.py:2` use the class of `pedido.py`.
  That class's `atualizar_quantidade` (`pedido.py:378-388`) has no guard for a
  missing product.
- **Placing an order** (`criar_pedido` in `backend/controllers/pedido_controller.py`).
  A loop walks the requested lines and, for each one:
  - looks the product up;
  - checks the stock that is left;
  - takes the units;
  - adds to a running total.

  The first bad line undoes the whole call.
- **Deliveries** (`Entrega`): the transitions between the seven statuses and the rating rule.
- **Users and cards** (`backend/models/usuario.py`):
  - the CPF mod-11 check;
  - the e-mail pattern;
  - phone and CPF formatting;
  - the login lock-out counter;
  - the role predicates;
  - card expiry and card-brand detection.
- **Addresses** (`backend/models/endereco.py`): CEP validation and formatting,
  state codes, the joined address texts and the coordinates.
- **Registration and login** (`registrar_usuario` and `autenticar` in
  `backend/controllers/auth_controller.py`). Registration is an ordered chain of
  checks in which the first failure wins. The stored e-mails and CPFs are sets,
  and password hashing is a function parameter.
- **The client cart** (`CarrinhoService`). This is a list of entries that the
  service changes in place, the sums shown to the user and the order payload.
- **The client registration form** (`RegisterPage`):
  - field validation;
  - the client's e-mail and CPF checks;
  - the CPF and phone input masks;
  - clearing the form;
  - the payload sent to the server.

Conventions:

- Money is integer cents.
- Clock readings (`datetime.now()`, `datetime.utcnow()`) become integer parameters:
  - `agora` is in seconds;
  - `ano` and `mes` are the current year and month.
- Strings are sequences of characters.
- `\D`, `.strip()`, `.trim()` and `.lower()` are modelled for the characters their
  Python and JavaScript versions treat specially (see "Left out").

Layout, one module per file:

- Shared code:
  - `base.dfy` (`Base`): Option, Result and the outcome of a state-changing method;
  - `texto.dfy` (`Texto`): digit extraction, the whitespace sets, trimming, lower and upper case, decimal printing and parsing, `split` and `join`.
- One file per source file:
  - `produto.dfy`, `item_pedido.dfy`, `pedido.dfy`, `pedido_controller.dfy`;
  - `entrega.dfy`, `usuario.dfy`, `cartao.dfy`, `endereco.dfy`;
  - `auth_controller.dfy`, `carrinho.dfy`, `register_page.dfy`.

An object whose methods update its fields is a `class`, together with a
datatype holding its state:

- `Pedido`, `Entrega`, `Usuario`, `CarrinhoService` and `PaginaRegistro` are classes;
- each method's contract gives the new state as a function of the old one;
- the lemmas about those functions state the rules.

## Model

| member | source | states |
|---|---|---|
| Pedidos.StatusDeNomeBijecao | backend/models/pedido.py:29-44 | The eight status names and the status enum correspond one to one: naming a status and reading the name back gives the same status, and every name that is read back names that status. |
| Pedidos.Formatar06d | backend/models/pedido.py:119-120 | `{n:06d}` is at least six characters long, and only digits when n is not negative. |
| Pedidos.GerarPrimeiroDoAno | backend/models/pedido.py:116-120 | With no order yet this year, the number is `LCC-<year>-000001`. |
| Pedidos.NumeroPedidoPartes | backend/models/pedido.py:110-120 | Splitting a generated number at '-' gives exactly three parts: the prefix, the year and the six-digit counter. |
| Pedidos.Formatar06dLido | backend/models/pedido.py:112-120 | `int()` reads the padded counter back as the same number. |
| Pedidos.LerNumeroPedido | backend/models/pedido.py:108-120 | With number n last this year, the next counter is n + 1. |
| Pedidos.ProximoNumeroPositivo | backend/models/pedido.py:108-117 | Whenever a next counter is produced, it is at least 1. |
| Pedidos.GerarNumeroPedidoSequencial | backend/models/pedido.py:98-120 | When the next counter is `n`, the generated number is year plus `n`; fed back as the latest number, the generator answers counter `n + 1` in the same year. |
| Pedidos.PrimeiroCom | backend/models/pedido.py:203-230 | `filter_by(...).first()` over the items gives the first position with the key, or the length when no item has the key. |
| Pedidos.DevolverEstoque | backend/models/pedido.py:269-271 | Giving the stock back keeps the same set of products in the table. |
| Pedidos.DevolverItens | backend/models/pedido.py:269-271 | The loop over the items of a cancelled order gives each item's product its units back, equal to the specification function. |
| Pedidos.DevolverEstoqueQuantidades | backend/models/pedido.py:269-271 | After the stock is given back, each product's stock is its old stock plus the units of all order items of that product. |
| Pedidos.TotalPedido | backend/models/pedido.py:154-158 | The total is never negative and not below subtotal + fee − discount; it equals that sum, or 0 when the sum is negative. |
| Pedidos.PedidoNovo | backend/models/pedido.py:23-44 | A new order satisfies the order invariant, waits for payment, has no items and has total 0. |
| Pedidos.EstadosDoPedido | backend/models/pedido.py:126-139 | No order is both cancellable and finished, and a ratable order is finished. |
| Pedidos.RecalcularValoresValido | backend/models/pedido.py:160-164 | Recalculating subtotal and total from items that each hold price × quantity restores the order invariant. |
| Pedidos.AplicarDescontoEfeito | backend/models/pedido.py:166-175 | A discount is accepted exactly when 0 ≤ discount ≤ subtotal, and a negative one gets its own error. On success the discount is stored, the items and subtotal stay and the total is subtotal + fee − discount. |
| Pedidos.DefinirTaxaEntregaEfeito | backend/models/pedido.py:177-183 | A fee is accepted exactly when it is not negative. On success the fee is stored, the subtotal stays, the total is recomputed and the invariant still holds. |
| Pedidos.AdicionarItemCondicoes | backend/models/pedido.py:189-196 | Adding succeeds exactly when 0 < quantity ≤ the product's stock; a quantity ≤ 0 gets the "must be positive" error. |
| Pedidos.AdicionarItemValido | backend/models/pedido.py:189-223 | A successful add keeps the order invariant: each item's subtotal is price × quantity, item ids increase and the totals agree with the items. |
| Pedidos.AdicionarItemTotais | backend/models/pedido.py:189-223 | A successful add raises the item count and that product's units by the quantity, and the subtotal by the applied price × quantity. |
| Pedidos.AdicionarItemSemDuplicar | backend/models/pedido.py:202-220 | A product already in the order adds no new item (its quantity grows); a new product adds one item; distinct products stay distinct. |
| Pedidos.RemoverItemCondicao | backend/models/pedido.py:225-233 | Removal succeeds exactly when some item has the given id. |
| Pedidos.RemoverItemEfeito | backend/models/pedido.py:225-236 | A successful removal drops one item, lowers the item count by its quantity and the subtotal by its price × quantity, and keeps the invariant. |
| Pedidos.AtualizarStatusEfeito | backend/models/pedido.py:238-254 | A status update succeeds exactly for one of the eight names. On success the new status carries that name, nothing other than status and notes changes, the invariant is kept, and with no note the notes stay as they were. |
| Pedidos.AnotarObservacaoNoFim | backend/models/pedido.py:250-252 | A note is appended on a new line as `<status>: <note>` after the old notes, with leading blanks stripped. |
| Pedidos.ConfirmarPagamentoEfeito | backend/models/pedido.py:256-262 | A payment is confirmed exactly when the order is waiting for payment. It then moves to Pago, records the payment method and keeps its items. |
| Pedidos.CancelarEfeito | backend/models/pedido.py:264-273 | Cancelling succeeds exactly for a cancellable order, gives Cancelado (a finished status) with the items kept, and a second cancellation fails. |
| Pedidos.AdicionarAvaliacaoEfeito | backend/models/pedido.py:275-286 | A rating is accepted exactly for a delivered, not yet rated order and a grade in 1..5, and is refused whenever the order is not ratable. It stores the grade and time, and a second rating fails. |
| Pedidos.Pedido.constructor | backend/models/pedido.py:23-44 | The object starts in the state of a new order. |
| Pedidos.Pedido.RecalcularValores | backend/models/pedido.py:160-164 | The new state is the recalculated order. |
| Pedidos.Pedido.AplicarDesconto | backend/models/pedido.py:166-175 | It reports success or the error of the specification function, and changes the state only on success. |
| Pedidos.Pedido.DefinirTaxaEntrega | backend/models/pedido.py:177-183 | As above, for the delivery fee. |
| Pedidos.Pedido.AdicionarItem | backend/models/pedido.py:189-223 | As above, for adding an item: the existing item of the product grows, or a new item is appended. |
| Pedidos.Pedido.RemoverItem | backend/models/pedido.py:225-236 | As above, for removing an item. |
| Pedidos.Pedido.AtualizarStatus | backend/models/pedido.py:238-254 | As above, for the status update. |
| Pedidos.Pedido.ConfirmarPagamento | backend/models/pedido.py:256-262 | As above, for confirming payment. |
| Pedidos.Pedido.Cancelar | backend/models/pedido.py:264-273 | As above, for cancelling. The product table comes back with each item's units returned after a success, and unchanged after a failure. |
| Pedidos.Pedido.AdicionarAvaliacao | backend/models/pedido.py:275-286 | As above, for the rating. |
| ItensPedido.ItemPedido.CalcularSubtotal | backend/models/item_pedido.py:66-69 | The subtotal becomes price × quantity, and nothing else changes. |
| ItensPedido.ItemPedido.AtualizarQuantidade | backend/models/item_pedido.py:37-85 | The update succeeds exactly when `validar_quantidade` holds: quantity > 0 and, with a product attached, within its stock. A quantity ≤ 0 and a shortage get their own errors. On success only the quantity and subtotal change, and subtotal = price × quantity. |
| ItensPedido.ItemPedido.AtualizarPreco | backend/models/item_pedido.py:87-94 | The update succeeds exactly for a positive price. On success only the price and subtotal change, and subtotal = price × quantity. |
| ItensPedido.ItemPedido.AdicionarObservacao | backend/models/item_pedido.py:96-102 | A note is accepted exactly when it has at most 255 characters, and is then stored unchanged. |
| ItensPedido.MutadoresPreservamSubtotal | backend/models/item_pedido.py:66-102 | Every successful mutator leaves subtotal = price × quantity. |
| Produtos.AjustarEstoque | backend/controllers/pedido_controller.py:36 | A stock adjustment changes exactly one product's stock, by the given amount, and leaves every other product alone. |
| PedidoController.ReservarLinhas | backend/controllers/pedido_controller.py:21-46 | The loop over the payload lines computes the same result as the line-by-line specification. |
| PedidoController.CriarPedido | backend/controllers/pedido_controller.py:6-51 | On success it returns a fresh order whose state is the specified one, plus the updated table. On failure it returns the error with the table unchanged (rollback). The NOT NULL columns are not enforced, so this success is one the database would refuse at flush or commit (see "## Left out"). |
| PedidoController.ReservarErroPropaga | backend/controllers/pedido_controller.py:23-34 | Once a prefix of the lines fails, the whole call fails with that error: later lines cannot repair it. |
| PedidoController.ReservarEstoque | backend/controllers/pedido_controller.py:23-44 | On success the table has the same products, and each product's stock drops by exactly the units asked for it across all lines. The items hold exactly those units. |
| PedidoController.ReservarItens | backend/controllers/pedido_controller.py:23-46 | On success there is one item per line, in order, with the product's current price and the line's quantity, defaulting to 1. The total is the sum of price × quantity. |
| PedidoController.ReservarSemEstoqueNegativo | backend/controllers/pedido_controller.py:32-36 | After a success no product named in the lines has negative stock. |
| PedidoController.ReservarSucessoSse | backend/controllers/pedido_controller.py:23-36 | With non-negative quantities, the call succeeds exactly when every line names a known product and each product's total requested units fit its stock. Repeated products are checked against the already reduced stock. |
| PedidoController.ReservarProdutoDesconhecido | backend/controllers/pedido_controller.py:27-30 | A line with a missing or unknown product makes the whole call fail. |
| PedidoController.CriarPedidoDadosObrigatorios | backend/controllers/pedido_controller.py:7-15 | A missing or zero user id, or an empty item list, is exactly the "required data" error. A given but unknown user is exactly the "user not found" error. |
| PedidoController.ReservarSoFalhaPorProduto | backend/controllers/pedido_controller.py:23-34 | The loop fails only with "product not found" or "out of stock". |
| PedidoController.CriarPedidoResultado | backend/controllers/pedido_controller.py:17-48 | A created order belongs to the known user, waits for payment, has one item per line, and its total is the sum of price × quantity. It has no number, a zero stored subtotal and items without name or subtotal, so it does not satisfy the order invariant. The missing number and item fields break NOT NULL columns, so the database would most likely refuse this order (see "## Left out"). |
| PedidoController.CriarCancelarRestauraEstoque | backend/controllers/pedido_controller.py:23-48 | A created order can be cancelled, and cancelling it gives back exactly the product table from before the order. |
| PedidoController.CenarioCompraSimples | backend/controllers/pedido_controller.py:6-51 | Three cupcakes out of 5 leave 2 in stock and cost 2400 cents. |
| PedidoController.CenarioEstoqueAcumulado | backend/controllers/pedido_controller.py:23-34 | The same product asked for in three lines (3, the default 1, then 2) against a stock of 5 fails on the third line. |
| Entregas.EntregaNova | backend/models/entrega.py:19-33 | A new delivery waits for a courier, satisfies the delivery invariant, and is neither in progress nor finished. |
| Entregas.SituacoesDaEntrega | backend/models/entrega.py:155-163 | In progress and finished are disjoint; waiting is exactly the status that is neither. |
| Entregas.AtribuirEntregadorEfeito | backend/models/entrega.py:73-78 | From any status, assigning records the courier and the time, and sets Atribuído (in progress), keeping the invariant. |
| Entregas.IniciarEntregaEfeito | backend/models/entrega.py:80-87 | Starting succeeds exactly from Atribuído or Aguardando, and otherwise fails naming the current status. It moves to A caminho with the departure time. |
| Entregas.MarcarProximoDestinoEfeito | backend/models/entrega.py:89-95 | Allowed exactly from A caminho; only the status changes, to Próximo ao destino. |
| Entregas.FinalizarEntregaEfeito | backend/models/entrega.py:97-108 | Allowed exactly from A caminho or Próximo ao destino. The result is Entregue exactly when the delivery succeeded (Não entregue otherwise), it is finished and records the time. |
| Entregas.CancelarEntregaEfeito | backend/models/entrega.py:110-121 | Cancelling fails exactly from Entregue or Cancelado. Otherwise it gives a finished Cancelado that cannot be cancelled again. |
| Entregas.AdicionarAvaliacaoEntregaEfeito | backend/models/entrega.py:129-139 | A rating is accepted exactly for a grade in 1..5 on a delivered delivery, and a bad grade is reported first. It stores the grade and keeps the status. |
| Entregas.ConcluidaNaoAvanca | backend/models/entrega.py:80-108 | A finished delivery can no longer be started, moved on or finished. |
| Entregas.PercursoNormal | backend/models/entrega.py:73-139 | Assign, start, approach, deliver and rate all succeed in that order from a new delivery. |
| Entregas.Entrega.constructor | backend/models/entrega.py:19-33 | The object starts as a new delivery. |
| Entregas.Entrega.AtribuirEntregador | backend/models/entrega.py:73-78 | The new state is the assigned delivery. |
| Entregas.Entrega.IniciarEntrega | backend/models/entrega.py:80-87 | It reports success or the error of the specification function, and changes the state only on success. |
| Entregas.Entrega.MarcarProximoDestino | backend/models/entrega.py:89-95 | As above. |
| Entregas.Entrega.FinalizarEntrega | backend/models/entrega.py:97-108 | As above. |
| Entregas.Entrega.CancelarEntrega | backend/models/entrega.py:110-121 | As above. |
| Entregas.Entrega.AdicionarAvaliacao | backend/models/entrega.py:129-139 | As above. |
| Usuarios.DigitoVerificador | backend/models/usuario.py:83-85 | A check digit is between 0 and 9: it is 11 − (sum mod 11), or 0 when that would be 10 or more. |
| Usuarios.CompletarCpf | backend/models/usuario.py:81-96 | Appending the two check digits to nine digits gives eleven digits that start with those nine. |
| Usuarios.CpfsInvalidosSse | backend/models/usuario.py:76-79 | A digit string is in the blocked list exactly when it is eleven copies of one digit. |
| Usuarios.RepetidoConfere | backend/models/usuario.py:76-96 | Eleven copies of one digit pass both check digits, so only the blocked list refuses them. |
| Usuarios.RepetidosPassamNosDigitos | backend/models/usuario.py:76-96 | Every entry of the blocked list passes the check-digit test. |
| Usuarios.DigitosConferemSse | backend/models/usuario.py:81-99 | Eleven digits pass both check digits exactly when they equal their first nine digits completed. |
| Usuarios.ValidarCpfSse | backend/models/usuario.py:62-99 | `validar_cpf` holds exactly when the digits of the input are eleven, not all the same, and end with the two check digits of the first nine. |
| Usuarios.CompletarCpfValido | backend/models/usuario.py:62-99 | Nine digits with their check digits appended form a valid CPF exactly when the eleven are not all the same. |
| Usuarios.DigitsCpfPontuado | backend/models/usuario.py:69 | Removing non-digits from `AAA.BBB.CCC-DD` gives the digits in order. |
| Usuarios.CpfValidoExemplo | backend/models/usuario.py:62-99 | 529.982.247-25 is valid. |
| Usuarios.CpfDigitoErradoExemplo | backend/models/usuario.py:87-97 | 529.982.247-26 fails the second check digit. |
| Usuarios.CpfRepetidoExemplo | backend/models/usuario.py:75-79 | 111.111.111-11 is refused. |
| Usuarios.FormatarCpf | backend/models/usuario.py:122-127 | The formatted CPF consists of digits only. |
| Usuarios.FormatarCpfPropriedades | backend/models/usuario.py:122-127 | Formatting keeps the digit sequence, is idempotent and does not change validity. |
| Usuarios.DigitsMascaraTelefone | backend/models/usuario.py:139-142 | The phone mask `(DD)…-…` keeps the digit sequence. |
| Usuarios.FormatarTelefonePropriedades | backend/models/usuario.py:110-144 | Validity is exactly 10 or 11 digits. Formatting keeps the digits, gives 14 characters for 11 digits and 13 for 10, leaves any other input unchanged, is idempotent and keeps validity. |
| Usuarios.CasaPadraoEmailSse | backend/models/usuario.py:101-108 | The pattern matches exactly when the text, less one final newline, is a local part of `[a-zA-Z0-9._%+-]`, '@', a domain of `[a-zA-Z0-9.-]`, '.', and two or more letters. |
| Usuarios.ValidarEmailPadrao | backend/models/usuario.py:101-108 | `validar_email` is the pattern match, and an accepted address has at least five characters. |
| Usuarios.EmailQuebraFinal | backend/models/usuario.py:107-108 | Because `$` matches before a final newline, appending "\n" does not change the verdict. |
| Usuarios.EmailsAceitosExemplo | backend/models/usuario.py:107-108 | ana@exemplo.com is accepted, with or without a final newline. |
| Usuarios.SemEspacoParaDominio | backend/models/usuario.py:107-108 | Text with no '.' before its last two characters is refused. |
| Usuarios.EmailSemDominioExemplo | backend/models/usuario.py:107-108 | ana@exemplo is refused. |
| Usuarios.EmailDominioCurtoExemplo | backend/models/usuario.py:107-108 | ana@exemplo.c is refused. |
| Usuarios.EmailSemLocalExemplo | backend/models/usuario.py:107-108 | @exemplo.com is refused. |
| Usuarios.PapeisExclusivos | backend/models/usuario.py:211-221 | Every user has exactly one of the three roles. |
| Usuarios.SenhaIdaEVolta | backend/models/usuario.py:150-166 | Setting a password succeeds exactly at 6 or more characters and stores only its hash; the stored hash then checks against that password. An empty password never checks. |
| Usuarios.IncrementarEfeito | backend/models/usuario.py:172-180 | A failed login adds 1 to the counter; from 5 failures the lock is set 1800 seconds ahead, below 5 it stays; nothing else changes. |
| Usuarios.EstaBloqueadoEfeito | backend/models/usuario.py:188-200 | The user is locked exactly when a lock is set and now is not past it. Past the lock, the lock and counter are cleared. A second query at the same time gives the same answer and state. |
| Usuarios.ResetarDesbloqueia | backend/models/usuario.py:182-186 | A reset zeroes the counter and leaves the user unlocked. |
| Usuarios.CincoFalhasBloqueiam | backend/models/usuario.py:172-200 | Four failures do not lock. The fifth locks until 30 minutes after it, and afterwards the counter is cleared. |
| Usuarios.Usuario.constructor | backend/models/usuario.py:30-43 | A new user has no password hash, no documents, a zero counter and no lock. |
| Usuarios.Usuario.SetSenha | backend/models/usuario.py:150-159 | It reports success or the error of the specification function, and changes the state only on success. |
| Usuarios.Usuario.IncrementarTentativasLogin | backend/models/usuario.py:172-180 | The new state is the specified one. |
| Usuarios.Usuario.ResetarTentativasLogin | backend/models/usuario.py:182-186 | The new state is the specified one. |
| Usuarios.Usuario.EstaBloqueado | backend/models/usuario.py:188-200 | The answer and the new state (lock cleared when expired) are the specified ones. |
| Cartoes.EstaValidoEmMeses | backend/models/usuario.py:311-316 | A card is valid exactly when its expiry month, counted from year 0, is not before the current one. |
| Cartoes.EstaValidoAntes | backend/models/usuario.py:311-316 | A card valid at some month was valid at every earlier month. |
| Cartoes.BandeiraSemDigitos | backend/models/usuario.py:322-325 | A number without digits is "Outro". |
| Cartoes.BandeiraVisa | backend/models/usuario.py:327-329 | Digits starting with 4 are Visa. |
| Cartoes.BandeiraMastercard | backend/models/usuario.py:331-335 | Prefixes 51–55 and 2221–2720 are Mastercard. |
| Cartoes.BandeiraEloSse | backend/models/usuario.py:337-340 | The result is Elo exactly for the listed Elo prefixes that do not start with 4 or 51–55. |
| Cartoes.BandeiraAmex | backend/models/usuario.py:342-344 | Prefixes 34 and 37 are American Express. |
| Cartoes.BandeiraHipercard | backend/models/usuario.py:346-348 | Prefix 6062 is Hipercard. |
| Cartoes.BinsEloComQuatroSaoVisa | backend/models/usuario.py:327-340 | An Elo prefix starting with 4 is reported as Visa (see Findings). |
| Cartoes.EloQuatroExemplo | backend/models/usuario.py:327-340 | 4011 is a listed Elo prefix, yet "4011 7890 1234 5678" comes out as Visa. |
| Cartoes.BandeiraCorrigidaElo | backend/models/usuario.py:318-350 | With the Elo test first, the result is Elo exactly for the listed Elo prefixes, and every other number gets the original answer. |
| Enderecos.FormatarCepPropriedades | backend/models/endereco.py:45-70 | Validity is exactly 8 digits. Formatting keeps the digits, gives NNNNN-NNN for a valid CEP, leaves other input unchanged, is idempotent and keeps validity. |
| Enderecos.EstadosValidosBemFormados | backend/models/endereco.py:78-82 | The list has 27 distinct codes of two capital letters. |
| Enderecos.ValidarEstadoCaixa | backend/models/endereco.py:72-84 | Any two-character text whose upper case is a listed code is accepted. |
| Enderecos.EstadosListadosAceitos | backend/models/endereco.py:72-84 | Every listed code is accepted, in upper and in lower case. |
| Enderecos.EstadosRecusados | backend/models/endereco.py:72-84 | A full state name, an unlisted code and the empty text are refused. |
| Enderecos.NaoVazias | backend/models/endereco.py:137-138 | Filtering keeps no empty part and never adds parts. |
| Enderecos.CoordenadasDefinidas | backend/models/endereco.py:146-154 | Having coordinates means both are present. Setting them gives an address with coordinates that differs from the old one in nothing else. |
| Enderecos.EnderecoCompletoTerminaComCep | backend/models/endereco.py:126-140 | The full address is the non-empty parts joined by ", ", always ending with "CEP: <cep>". |
| Enderecos.EnderecoCompletoPreenchido | backend/models/endereco.py:126-140 | With every part filled in it is `rua, numero, complemento, cidade, estado, CEP: cep`. |
| Enderecos.EnderecoCompletoSemComplemento | backend/models/endereco.py:126-140 | Without a complement that part is left out. |
| Enderecos.EnderecoResumidoForma | backend/models/endereco.py:126-144 | With street and number present, both address texts start with "rua, numero". |
| AuthController.PreenchidoDigitos | backend/controllers/auth_controller.py:41-42 | Reading an optional field keeps its digits, and a field with digits counts as given. |
| AuthController.EncadearSse | backend/controllers/auth_controller.py:59-183 | The chain succeeds exactly when no step fails, and then yields the user. Otherwise the first failing step's error is returned. |
| AuthController.PadraoPassaNaTriagem | backend/controllers/auth_controller.py:74-82 | An address that matches the pattern also passes the earlier '@' and '.' tests. |
| AuthController.ArrobaUnica | backend/controllers/auth_controller.py:74 | An address that matches the pattern has exactly one '@', so splitting at '@' gives two parts. |
| AuthController.ErroCredenciaisSse | backend/controllers/auth_controller.py:59-91 | The name, e-mail and password checks all pass exactly when the name has 2–100 characters, the e-mail is valid and at most 100 long, and the password has 6–100 characters. |
| AuthController.ErroObrigatoriosSse | backend/controllers/auth_controller.py:170-183 | The final required check passes exactly for 11 CPF digits and 10–11 phone digits. |
| AuthController.ErroOpcionaisSse | backend/controllers/auth_controller.py:96-122 | When the counts already fit, the optional checks pass exactly when the CPF digits are not all the same. |
| AuthController.ErroDocumentosSse | backend/controllers/auth_controller.py:96-183 | Both document checks pass exactly for 11 CPF digits not all the same and 10–11 phone digits. |
| AuthController.ErroDuplicadosSse | backend/controllers/auth_controller.py:130-154 | The duplicate checks pass exactly when neither the e-mail (case-insensitively) nor the cleaned CPF is already stored. |
| AuthController.EtapaCredenciaisSse | backend/controllers/auth_controller.py:38-91 | The same, on the raw request fields after stripping and lower-casing. |
| AuthController.EtapasDocumentosSse | backend/controllers/auth_controller.py:96-183 | The same, on the raw CPF and phone fields. |
| AuthController.EtapaDuplicadosSse | backend/controllers/auth_controller.py:130-154 | The same, on the normalised e-mail and the CPF digits. |
| AuthController.RegistrarSse | backend/controllers/auth_controller.py:12-212 | Registration succeeds exactly when every condition of the chain holds. |
| AuthController.RegistrarSucesso | backend/controllers/auth_controller.py:162-194 | A registered user has the stripped name and the normalised, valid, new e-mail. The hash is of the stripped password. The CPF is eleven new digits, not all the same, and the phone is valid digits. The user is an active customer with no lock. |
| AuthController.RegistrarCamposObrigatorios | backend/controllers/auth_controller.py:59-60 | A missing or blank name, e-mail or password is the first error. |
| AuthController.EmailDuplicadoAntesDoCpf | backend/controllers/auth_controller.py:130-154 | An otherwise acceptable request with a stored e-mail fails with the e-mail error, whatever the CPF. |
| AuthController.CpfDuplicadoRecusado | backend/controllers/auth_controller.py:145-154 | An otherwise acceptable request with a new e-mail and a stored CPF fails with the CPF error. |
| AuthController.CpfETelefoneObrigatorios | backend/controllers/auth_controller.py:170-180 | Leaving out the CPF or the phone always fails. |
| AuthController.ExemploAceitavel | backend/controllers/auth_controller.py:96-186 | The request Ana / ana@exemplo.com / segredo / 529.982.247-26 / 11987654321 is acceptable. |
| AuthController.RegistrarNaoConfereDigitos | backend/controllers/auth_controller.py:96-186 | That request registers with CPF 52998224726, although `validar_cpf` refuses it: registration does no check-digit test. |
| AuthController.VerificarCredenciais | backend/controllers/auth_controller.py:59-91 | The early-exit checks return the first error of the chain. |
| AuthController.VerificarOpcionais | backend/controllers/auth_controller.py:96-122 | The same for the optional CPF and phone, together with the cleaned CPF. |
| AuthController.VerificarDuplicados | backend/controllers/auth_controller.py:130-154 | The same for the duplicate checks. |
| AuthController.VerificarObrigatorios | backend/controllers/auth_controller.py:170-183 | The same for the final required checks, together with the digits-only values. |
| AuthController.PreencherUsuario | backend/controllers/auth_controller.py:185-194 | Only CPF, phone and password hash of the new user change. |
| AuthController.RegistrarUsuario | backend/controllers/auth_controller.py:12-219 | On success it returns a fresh user in the specified state; on failure it returns the specified error and no user (rollback). |
| AuthController.IndiceEmail | backend/controllers/auth_controller.py:270-272 | The lookup finds the first user whose lower-cased e-mail is the one searched, or none. |
| AuthController.AutenticarSse | backend/controllers/auth_controller.py:255-336 | Login succeeds exactly for a non-empty e-mail and password whose first matching user is active and accepts the password. That user is returned, and an unknown e-mail always fails. |
| AuthController.NormalizarEmailIdempotente | backend/controllers/auth_controller.py:255 | Stripping and lower-casing twice is the same as once. |
| AuthController.AutenticarEmailNormalizado | backend/controllers/auth_controller.py:255-272 | Login gives the same answer for an e-mail and its normalised form. |
| AuthController.AutenticarNovoUsuario | backend/controllers/auth_controller.py:261-336 | A new, active user whose e-mail no stored user has, and whose password checks, is returned by login. |
| AuthController.RegistrarEntaoAutenticar | backend/controllers/auth_controller.py:12-336 | A user just registered can log in with the e-mail and password from the request. |
| Carrinho.IndiceDe | myApp/src/app/services/carrinho.service.ts:51 | `findIndex` gives −1 or a position holding that product. |
| Carrinho.IndiceDePrimeiro | myApp/src/app/services/carrinho.service.ts:51 | No earlier entry, and with −1 no entry at all, holds the product. |
| Carrinho.EncontrarIndice | myApp/src/app/services/carrinho.service.ts:51 | The search loop computes `findIndex`. |
| Carrinho.VazioSse | myApp/src/app/services/carrinho.service.ts:33-43 | An empty cart has no units and costs 0. With positive quantities, the cart is empty exactly when its unit count is 0. |
| Carrinho.QuantidadeTotalMinima | myApp/src/app/services/carrinho.service.ts:33-35 | With every quantity at least 1, the unit count is at least the number of entries. |
| Carrinho.SomarConcat | myApp/src/app/services/carrinho.service.ts:33-39 | The sums add up over concatenated carts. |
| Carrinho.SemProdutoEfeito | myApp/src/app/services/carrinho.service.ts:76-79 | After removal no entry holds the product, its units are 0, and other products keep their units. The totals drop by its units and value, and ids stay unique. |
| Carrinho.SemProdutoElementos | myApp/src/app/services/carrinho.service.ts:77 | The filter keeps only entries from the cart, of other products. |
| Carrinho.SemProdutoUnico | myApp/src/app/services/carrinho.service.ts:76-87 | With unique ids, removing by id is removing at its index. |
| Carrinho.AdicionarEfeito | myApp/src/app/services/carrinho.service.ts:49-70 | Adding a product already in the cart raises only that entry's quantity, at its price; a new product is appended at the end. Its units and the unit count grow by the amount, other products keep theirs, the value grows by amount × price, and ids stay unique. |
| Carrinho.RemoverNaPosicaoEfeito | myApp/src/app/services/carrinho.service.ts:81-87 | An index out of range changes nothing. Otherwise exactly that position goes, the rest keep their order and the totals drop by its units and value. |
| Carrinho.DefinirQuantidadeEfeito | myApp/src/app/services/carrinho.service.ts:93-105 | An absent id changes nothing, and a quantity ≤ 0 removes the entry. Otherwise the quantity is set: its units become max(q, 0) and the unit count changes by the difference. Ids stay unique. |
| Carrinho.AumentarEfeito | myApp/src/app/services/carrinho.service.ts:107-114 | Increasing is adding 1 of a product in the cart, and does nothing for an absent id. |
| Carrinho.DiminuirEfeito | myApp/src/app/services/carrinho.service.ts:116-127 | An absent id changes nothing. Above 1 the unit count drops by 1; at 1 or less the product leaves the cart. Ids stay unique. |
| Carrinho.DiminuirAumentar | myApp/src/app/services/carrinho.service.ts:107-127 | Decreasing after increasing gives back the same cart. |
| Carrinho.DiminuirAdicionarNovo | myApp/src/app/services/carrinho.service.ts:49-127 | Adding one unit of a new product and then decreasing it gives back the same cart. |
| Carrinho.LinhasDoCarrinho | myApp/src/app/services/carrinho.service.ts:176-179 | The payload lists one (id, quantity) pair per entry, in cart order. |
| Carrinho.SomaPedidaDoCarrinho | myApp/src/app/services/carrinho.service.ts:175-185 | The payload asks for each product exactly the units the cart holds of it. |
| Carrinho.PayloadSemUsuarioRecusado | myApp/src/app/services/carrinho.service.ts:175-185 | The payload carries no user id, so the order endpoint refuses it with the "required data" error. |
| Carrinho.PedidoDoCarrinhoSse | myApp/src/app/services/carrinho.service.ts:175-185 | With a user id added, reservation succeeds exactly when every product is known and its cart units fit its stock. |
| Carrinho.PedidoComUsuarioSse | myApp/src/app/services/carrinho.service.ts:175-185 | With the user's id added to the cart's lines, `criar_pedido` succeeds exactly when the id is non-zero and known, the cart is not empty, and every product is known with the cart's units in stock. |
| Carrinho.PedidoDoCarrinhoValor | myApp/src/app/services/carrinho.service.ts:175-185 | When the server's prices equal the cart's, the created order's total equals the payload's `valor_total`. |
| Carrinho.CarrinhoService.constructor | myApp/src/app/services/carrinho.service.ts:18 | The service starts from the list read from storage. |
| Carrinho.CarrinhoService.AdicionarItem | myApp/src/app/services/carrinho.service.ts:49-70 | The new cart is the specified addition. |
| Carrinho.CarrinhoService.RemoverItem | myApp/src/app/services/carrinho.service.ts:76-79 | The filter loop gives the specified removal. |
| Carrinho.CarrinhoService.RemoverItemPorIndex | myApp/src/app/services/carrinho.service.ts:81-87 | The new cart is the specified removal at a position. |
| Carrinho.CarrinhoService.AtualizarQuantidade | myApp/src/app/services/carrinho.service.ts:93-105 | The new cart is the specified quantity update. |
| Carrinho.CarrinhoService.AumentarQuantidade | myApp/src/app/services/carrinho.service.ts:107-114 | The new cart is the specified increase. |
| Carrinho.CarrinhoService.DiminuirQuantidade | myApp/src/app/services/carrinho.service.ts:116-127 | The new cart is the specified decrease. |
| Carrinho.CarrinhoService.LimparCarrinho | myApp/src/app/services/carrinho.service.ts:133-135 | Afterwards the cart is empty and both sums are 0. |
| RegisterPage.IsValidEmailSse | myApp/src/app/pages/register/register.page.ts:199-202 | The client pattern holds exactly when there is one '@', with characters that are neither blank nor '@' before it, and a '.' after it with such characters on both sides. |
| RegisterPage.EmailClienteMaisPermissivo | myApp/src/app/pages/register/register.page.ts:199-202 | ana@exemplo.c passes the client but not the server. |
| RegisterPage.IsValidCPFSse | myApp/src/app/pages/register/register.page.ts:204-222 | The client accepts a CPF exactly when it has 11 digits that are not all the same: there is no check-digit test. |
| RegisterPage.IsValidCPFMaisFraco | myApp/src/app/pages/register/register.page.ts:204-222 | Every CPF the server's `validar_cpf` accepts passes the client, but 529.982.247-26 passes the client only. |
| RegisterPage.PrimeiroErro | myApp/src/app/pages/register/register.page.ts:44-102 | There is no error exactly when every step passes. Otherwise the reported error is the first failing step's. |
| RegisterPage.PrimeiroErroCinco | myApp/src/app/pages/register/register.page.ts:44-102 | For the five field groups, the first error is name, then e-mail, password, CPF, phone. |
| RegisterPage.ErroNomeSse | myApp/src/app/pages/register/register.page.ts:48-54 | The name passes exactly when, trimmed, it has at least 2 code units. |
| RegisterPage.ErroEmailSse | myApp/src/app/pages/register/register.page.ts:57-63 | The e-mail passes exactly when, trimmed and lower-cased, it matches the client pattern. |
| RegisterPage.ErroSenhaSse | myApp/src/app/pages/register/register.page.ts:66-81 | The password passes exactly when, trimmed, it has at least 6 code units and equals the trimmed confirmation. |
| RegisterPage.ErroCpfSse | myApp/src/app/pages/register/register.page.ts:84-89 | The CPF passes exactly for 11 digits not all the same. |
| RegisterPage.ErroTelefoneSse | myApp/src/app/pages/register/register.page.ts:92-98 | The phone passes exactly with at least 10 digits; the client sets no upper bound. |
| RegisterPage.ValidarCamposSse | myApp/src/app/pages/register/register.page.ts:44-102 | The form is valid exactly when all five groups pass. |
| RegisterPage.MensagensPorGrupo | myApp/src/app/pages/register/register.page.ts:44-102 | Each group reports only its own messages. |
| RegisterPage.CpfRecusadoSse | myApp/src/app/pages/register/register.page.ts:84-89 | "CPF inválido" is reported for a non-blank CPF that is not 11 digits, or all the same digit. |
| RegisterPage.TelefoneCurtoSse | myApp/src/app/pages/register/register.page.ts:92-98 | "Telefone inválido" is reported for a non-blank phone with fewer than 10 digits. |
| RegisterPage.ValidarCamposCpfRecusado | myApp/src/app/pages/register/register.page.ts:44-89 | The form reports the bad CPF exactly when name, e-mail and password pass and the CPF is refused. |
| RegisterPage.ValidarCamposTelefoneCurto | myApp/src/app/pages/register/register.page.ts:44-98 | The form reports the short phone exactly when everything before it passes and the phone is short. |
| RegisterPage.EnvioAceito | myApp/src/app/pages/register/register.page.ts:104-145 | A sent payload has a lower-cased valid e-mail and a password of 6 or more code units. The CPF is 11 digits not all the same, and the phone digits-only, at least 10 long. |
| RegisterPage.TelefoneLongoRecusadoNoServidor | myApp/src/app/pages/register/register.page.ts:92-145 | A form with more than 11 phone digits passes the client, but the server refuses its payload. |
| RegisterPage.MascararCpfDigitos | myApp/src/app/pages/register/register.page.ts:224-233 | The CPF mask keeps the digit sequence, and masking the digits of a masked value gives it back. |
| RegisterPage.MascararCpfOnze | myApp/src/app/pages/register/register.page.ts:224-233 | Eleven digits are masked as NNN.NNN.NNN-NN. |
| RegisterPage.MascararTelefoneDigitos | myApp/src/app/pages/register/register.page.ts:235-243 | The phone mask keeps the digit sequence, and masking the digits of a masked value gives it back. |
| RegisterPage.MascararTelefoneCelular | myApp/src/app/pages/register/register.page.ts:235-243 | Ten or eleven digits are masked as (DD) N…-NNNN. |
| RegisterPage.FormatarDuasVezes | myApp/src/app/pages/register/register.page.ts:224-243 | Formatting a field a second time changes nothing, and the digits stay the same. |
| RegisterPage.PaginaRegistro.constructor | myApp/src/app/pages/register/register.page.ts:16-25 | All fields start empty and the flags false. |
| RegisterPage.PaginaRegistro.TogglePassword | myApp/src/app/pages/register/register.page.ts:36-38 | Only the password visibility flips. |
| RegisterPage.PaginaRegistro.ToggleConfirmPassword | myApp/src/app/pages/register/register.page.ts:40-42 | Only the confirmation visibility flips. |
| RegisterPage.PaginaRegistro.FormatarCPF | myApp/src/app/pages/register/register.page.ts:224-233 | With at most 11 digits the field becomes the mask of its digits; otherwise, and for every other field, nothing changes. |
| RegisterPage.PaginaRegistro.FormatarTelefone | myApp/src/app/pages/register/register.page.ts:235-243 | The same for the phone. |
| RegisterPage.PaginaRegistro.LimparFormulario | myApp/src/app/pages/register/register.page.ts:245-255 | Name, e-mail, password, confirmation, phone and CPF become empty, and both visibility flags false. The surname and the loading flag are kept. |

## Left out

- Flask wiring (the app factory, CORS, JWT, blueprints, logging and the debug endpoints) and the single-table ORM CRUD controllers: they hold no order or validation logic.
- The `Produto` model is not part of this model. A product is a record with name, price, stock and an active flag, and `verificar_estoque(q)` is q ≤ stock.
- Database sessions: commit, rollback and queries are values. The stored users, e-mails and CPFs are a sequence and sets, and the order's items are a field of type `seq` that the methods reassign. The model therefore has no object identity for items, and no aliasing between an item and the order that holds it.
- Password hashing (Werkzeug) and its checker are function parameters, assumed only to accept the password they hashed where a lemma says so.
- The ViaCEP lookup `buscar_por_cep` and every HTTP call of the client: they are network I/O.
- Floating point:
  - the float total of `criar_pedido`;
  - the `float(...)` and `R$` formatting in `to_dict` and the formatted properties;
  - `atualizar_localizacao` and the float coordinates, modelled as integers in `definir_coordenadas`;
  - JavaScript numbers, modelled as unbounded integers.
- Wall-clock reads: they are parameters. `tempo_decorrido` and `atualizar_ultimo_acesso` are left out because they only read or store the clock.
- Serialisation (`to_dict`, `to_dict_resumido`, `__repr__`), the cart's localStorage copy and observable, descriptions and images, toasts, loaders, navigation and `goToLogin`.
- The asynchronous `register()` flow. Its validation and payload are modelled (`RegisterPage.Envio`), but the server round trip and error-message extraction are not.
- The surname and birth date: the client sends the surname, but `registrar_usuario` ignores it.
- Concurrency: two requests reserving the same stock at once.
- Characters:
  - `\D` and Python's `isdigit` are taken to mean the ASCII digits, whereas Python's `re` also counts other Unicode decimal digits;
  - `lower()` and `upper()` map the ASCII letters and the four code points whose case mapping gives an ASCII letter (KELVIN SIGN, U+0130, U+0131, U+017F); every other character, such as 'É', is left unchanged.
- AuthController.Registrar: a JSON `null` or a non-text value for name, e-mail or password makes `.strip()` raise, and the source then reports a generic "Erro ao criar usuário". The model takes every field as text, and `null` as missing, which gives the required-fields error instead.
- The checkout page of the client builds its own order request and does not use `getPedidoPayload`. The model relates the cart payload to `criar_pedido` only through the lemmas above.
- PedidoController.CriarPedido: the model does not enforce the NOT NULL columns, so the orders `criar_pedido` builds are modelled as accepted. In the database they would be refused at the `flush()` (`pedido_controller.py:19`) or the commit (`:49`). `numero_pedido` is NOT NULL with no default (`pedido.py:16`) and is never set, because nothing calls `gerar_numero_pedido`. The items leave `nome_produto` and `subtotal` unset, and both are NOT NULL (`item_pedido.py:18,21`).
- Pedidos.Pedido: the functions and methods that add up the items require every item to have a subtotal (`SubtotaisDefinidos`). The column is NOT NULL (`item_pedido.py:21`), so stored rows always have one. The `TypeError` that `calcular_subtotal` would raise on an item without a subtotal is not modelled.
- Carrinho.Adicionar: the default argument `quantidade: number = 1` of `adicionarItem` (`carrinho.service.ts:49`) is not modelled. The quantity is always passed explicitly, and calling with 1 gives the default's behaviour.
- Pedidos.Pedido.Cancelar: requires every item's product to be in the product table, which the foreign key with `ON DELETE RESTRICT` guarantees in the database.

## Findings

| source | as written | input that shows it | evidently intended | confidence | as-written member | corrected member |
|---|---|---|---|---|---|---|
| backend/models/usuario.py:318-350 | `detectar_bandeira` tests "starts with 4" (Visa) before the Elo list, so the listed Elo prefixes 4011, 4312, 4389, 4514 and 4573 can never give Elo | "4011 7890 1234 5678" gives "Visa" | every number whose first four digits are a listed Elo prefix is "Elo" | medium, not executed | Cartoes.BinsEloComQuatroSaoVisa | Cartoes.BandeiraCorrigidaElo |
| myApp/src/app/services/carrinho.service.ts:175-185 | `getPedidoPayload` sends the lines and `valor_total` but no `id_usuario`. The cart page (`carrinho.page.ts:179-183`) adds only `observacoes` and `metodo_pagamento`, and `criar_pedido` refuses a missing user id with the "required data" error | any cart, e.g. one entry `{id_produto: 1, quantidade: 1}`, is refused | the request names the logged-in user, and the order is placed when the stock allows | medium, not executed | Carrinho.PayloadSemUsuarioRecusado | Carrinho.PedidoComUsuarioSse |
