/** Placing an order (controllers/pedido_controller.py, criar_pedido). The
    user table, the product table and the ids the database hands out are
    parameters; the rollback on an error is modelled by returning the product
    table unchanged. */
module PedidoController {
  import opened Base
  import opened Produtos
  import opened ItensPedido
  import opened Pedidos

  /** One element of the payload's `itens`; a missing key is None. */
  datatype LinhaPedido = LinhaPedido(idProduto: Option<int>, quantidade: Option<int>)

  /** The request body: `id_usuario` and `itens` (a missing list is empty). */
  datatype PayloadPedido = PayloadPedido(idUsuario: Option<int>, itens: seq<LinhaPedido>)

  datatype ErroCriacao =
    | DadosObrigatorios                       // "id_usuario e itens são obrigatórios"
    | UsuarioNaoEncontrado                    // "Usuário não encontrado"
    | ProdutoNaoEncontrado(id: Option<int>)   // "Produto ... não encontrado"
    | ProdutoSemEstoque(nome: string)         // "Estoque insuficiente para ..."

  /** `it.get("quantidade", 1)`. */
  function QuantidadeDe(l: LinhaPedido): int { l.quantidade.GetOr(1) }

  /** What the loop has built so far: the items, the product table and the running total. */
  datatype Reserva = Reserva(itens: seq<ItemPedido>, estoque: Catalogo, total: int)

  /** One pass of the loop body: look the product up, check its stock, take
      the units and add an item priced at `produto.preco`. */
  function ReservarLinha(r: Reserva, l: LinhaPedido, idItem: int): Result<Reserva, ErroCriacao>
  {
    match l.idProduto
    case None => Err(ProdutoNaoEncontrado(None))
    case Some(p) =>
      if p !in r.estoque then Err(ProdutoNaoEncontrado(Some(p)))
      else
        var produto := r.estoque[p];
        var q := QuantidadeDe(l);
        if produto.estoque < q then Err(ProdutoSemEstoque(produto.nome))
        else Ok(Reserva(r.itens + [ItemPedido(idItem, p, None, q, produto.preco, None, None)],
                        AjustarEstoque(r.estoque, p, -q),
                        r.total + produto.preco * q))
  }

  /** The loop over the lines, in order, from product table `estoque`; the
      `k`-th new item gets id `primeiroId + k`. The first failing line decides
      the error. */
  function Reservar(estoque: Catalogo, linhas: seq<LinhaPedido>, primeiroId: int): Result<Reserva, ErroCriacao>
  {
    if linhas == [] then Ok(Reserva([], estoque, 0))
    else
      match Reservar(estoque, linhas[..|linhas| - 1], primeiroId)
      case Err(e) => Err(e)
      case Ok(r) => ReservarLinha(r, linhas[|linhas| - 1], primeiroId + |linhas| - 1)
  }

  /** criar_pedido: the new order's fields and the product table afterwards. */
  function CriarPedidoSpec(usuarios: set<int>, estoque: Catalogo, payload: PayloadPedido, primeiroId: int)
    : Result<(DadosPedido, Catalogo), ErroCriacao>
  {
    if payload.idUsuario.None? || payload.idUsuario.value == 0 || payload.itens == [] then Err(DadosObrigatorios)
    else if payload.idUsuario.value !in usuarios then Err(UsuarioNaoEncontrado)
    else
      match Reservar(estoque, payload.itens, primeiroId)
      case Err(e) => Err(e)
      case Ok(r) => Ok((PedidoNovo(payload.idUsuario.value, None).(itens := r.itens, valorTotal := r.total), r.estoque))
  }

  // ---------------------------------------------------------------------------
  // The controller
  // ---------------------------------------------------------------------------

  /** One more line of the loop is one more step of the specification. */
  lemma ReservarPasso(estoque: Catalogo, linhas: seq<LinhaPedido>, i: nat, primeiroId: int, r: Reserva)
    requires i < |linhas| && Reservar(estoque, linhas[..i], primeiroId) == Ok(r)
    ensures Reservar(estoque, linhas[..i + 1], primeiroId) == ReservarLinha(r, linhas[i], primeiroId + i)
  {
    assert linhas[..i + 1][..i] == linhas[..i];
  }

  /** A line whose product is known and in stock adds its item, takes its
      units and adds its value. */
  lemma ReservarLinhaAtendida(r: Reserva, l: LinhaPedido, idItem: int)
    requires l.idProduto.Some? && l.idProduto.value in r.estoque
    requires r.estoque[l.idProduto.value].estoque >= QuantidadeDe(l)
    ensures
      var p := l.idProduto.value;
      var q := QuantidadeDe(l);
      ReservarLinha(r, l, idItem)
      == Ok(Reserva(r.itens + [ItemPedido(idItem, p, None, q, r.estoque[p].preco, None, None)],
                    AjustarEstoque(r.estoque, p, -q), r.total + r.estoque[p].preco * q))
  {
  }

  /** The successful step of the loop, from the prefix before line `i` to the prefix after it. */
  lemma ReservarAvanca(estoque: Catalogo, linhas: seq<LinhaPedido>, i: nat, primeiroId: int, r: Reserva)
    requires i < |linhas| && Reservar(estoque, linhas[..i], primeiroId) == Ok(r)
    requires linhas[i].idProduto.Some? && linhas[i].idProduto.value in r.estoque
    requires r.estoque[linhas[i].idProduto.value].estoque >= QuantidadeDe(linhas[i])
    ensures
      var p := linhas[i].idProduto.value;
      var q := QuantidadeDe(linhas[i]);
      Reservar(estoque, linhas[..i + 1], primeiroId)
      == Ok(Reserva(r.itens + [ItemPedido(primeiroId + i, p, None, q, r.estoque[p].preco, None, None)],
                    AjustarEstoque(r.estoque, p, -q), r.total + r.estoque[p].preco * q))
  {
    ReservarPasso(estoque, linhas, i, primeiroId, r);
    ReservarLinhaAtendida(r, linhas[i], primeiroId + i);
  }

  /** The loop of criar_pedido over the payload's lines. */
  method ReservarLinhas(estoque: Catalogo, linhas: seq<LinhaPedido>, primeiroId: int)
    returns (res: Result<Reserva, ErroCriacao>)
    ensures res == Reservar(estoque, linhas, primeiroId)
  {
    var total := 0;
    var tabela := estoque;
    var itens: seq<ItemPedido> := [];
    var i := 0;
    while i < |linhas|
      invariant 0 <= i <= |linhas|
      invariant Reservar(estoque, linhas[..i], primeiroId) == Ok(Reserva(itens, tabela, total))
    {
      var linha := linhas[i];
      var q := QuantidadeDe(linha);
      if linha.idProduto.None? || linha.idProduto.value !in tabela {
        ReservarPasso(estoque, linhas, i, primeiroId, Reserva(itens, tabela, total));
        ReservarErroPropaga(estoque, linhas, i + 1, primeiroId);
        return Err(ProdutoNaoEncontrado(linha.idProduto));
      }
      var idProduto := linha.idProduto.value;
      var produto := tabela[idProduto];
      if produto.estoque < q {
        ReservarPasso(estoque, linhas, i, primeiroId, Reserva(itens, tabela, total));
        ReservarErroPropaga(estoque, linhas, i + 1, primeiroId);
        return Err(ProdutoSemEstoque(produto.nome));
      }
      ReservarAvanca(estoque, linhas, i, primeiroId, Reserva(itens, tabela, total));
      tabela := AjustarEstoque(tabela, idProduto, -q);
      itens := itens + [ItemPedido(primeiroId + i, idProduto, None, q, produto.preco, None, None)];
      total := total + produto.preco * q;
      i := i + 1;
    }
    assert linhas[..|linhas|] == linhas;
    res := Ok(Reserva(itens, tabela, total));
  }

  /** `criar_pedido`; on an error the product table comes back as it was (the rollback). */
  method CriarPedido(usuarios: set<int>, estoque: Catalogo, payload: PayloadPedido, primeiroId: int)
    returns (r: Result<Pedido, ErroCriacao>, estoqueFinal: Catalogo)
    ensures match CriarPedidoSpec(usuarios, estoque, payload, primeiroId)
      case Ok(res) => r.Ok? && fresh(r.value) && r.value.Estado() == res.0 && estoqueFinal == res.1
      case Err(e) => r == Err(e) && estoqueFinal == estoque
  {
    if payload.idUsuario.None? || payload.idUsuario.value == 0 || payload.itens == [] {
      return Err(DadosObrigatorios), estoque;
    }
    var idUsuario := payload.idUsuario.value;
    if idUsuario !in usuarios {
      return Err(UsuarioNaoEncontrado), estoque;
    }
    var pedido := new Pedido(idUsuario, None);
    var reserva := ReservarLinhas(estoque, payload.itens, primeiroId);
    match reserva
    case Err(e) =>
      r, estoqueFinal := Err(e), estoque;
    case Ok(res) =>
      pedido.itens := res.itens;
      pedido.valorTotal := res.total;
      r, estoqueFinal := Ok(pedido), res.estoque;
  }

  // ---------------------------------------------------------------------------
  // What placing an order promises
  // ---------------------------------------------------------------------------

  /** Once a line fails, the whole loop fails with that line's error. */
  lemma {:induction false} ReservarErroPropaga(estoque: Catalogo, linhas: seq<LinhaPedido>, j: nat, primeiroId: int)
    requires j <= |linhas|
    requires Reservar(estoque, linhas[..j], primeiroId).Err?
    ensures Reservar(estoque, linhas, primeiroId) == Reservar(estoque, linhas[..j], primeiroId)
    decreases |linhas| - j
  {
    if j == |linhas| {
      assert linhas[..j] == linhas;
    } else {
      var pre := linhas[..|linhas| - 1];
      assert pre[..j] == linhas[..j];
      ReservarErroPropaga(estoque, pre, j, primeiroId);
    }
  }

  /** Units of product `p` the lines ask for. */
  function SomaPedida(linhas: seq<LinhaPedido>, p: int): int
  {
    if linhas == [] then 0
    else
      var l := linhas[|linhas| - 1];
      SomaPedida(linhas[..|linhas| - 1], p) + (if l.idProduto == Some(p) then QuantidadeDe(l) else 0)
  }

  /** After a successful loop every product has lost exactly the units the
      lines asked of it and nothing else about it has changed; the items hold
      those same units. */
  lemma {:induction false} ReservarEstoque(estoque: Catalogo, linhas: seq<LinhaPedido>, primeiroId: int)
    requires Reservar(estoque, linhas, primeiroId).Ok?
    ensures
      var r := Reservar(estoque, linhas, primeiroId).value;
      && r.estoque.Keys == estoque.Keys
      && (forall p :: p in estoque ==> r.estoque[p] == estoque[p].(estoque := estoque[p].estoque - SomaPedida(linhas, p)))
      && (forall p :: QuantidadeDoProduto(r.itens, p) == SomaPedida(linhas, p))
  {
    if linhas != [] {
      var pre := linhas[..|linhas| - 1];
      ReservarEstoque(estoque, pre, primeiroId);
      var r0 := Reservar(estoque, pre, primeiroId).value;
      var r := Reservar(estoque, linhas, primeiroId).value;
      var x := r.itens[|r.itens| - 1];
      assert r.itens == r0.itens + [x];
      assert r.itens[..|r.itens| - 1] == r0.itens;
    }
  }

  /** The `k`-th item is the `k`-th line: its product, its quantity (1 when
      omitted), the product's `preco` at the time, no name and no subtotal; the
      total is the sum of price times quantity. */
  lemma {:induction false} ReservarItens(estoque: Catalogo, linhas: seq<LinhaPedido>, primeiroId: int)
    requires Reservar(estoque, linhas, primeiroId).Ok?
    ensures
      var r := Reservar(estoque, linhas, primeiroId).value;
      && |r.itens| == |linhas|
      && r.total == Soma(r.itens, ValorItem)
      && forall k :: 0 <= k < |linhas| ==>
           && linhas[k].idProduto.Some? && linhas[k].idProduto.value in estoque
           && r.itens[k] == ItemPedido(primeiroId + k, linhas[k].idProduto.value, None, QuantidadeDe(linhas[k]),
                                       estoque[linhas[k].idProduto.value].preco, None, None)
  {
    if linhas != [] {
      var pre := linhas[..|linhas| - 1];
      ReservarItens(estoque, pre, primeiroId);
      ReservarEstoque(estoque, pre, primeiroId);
      var r0 := Reservar(estoque, pre, primeiroId).value;
      var r := Reservar(estoque, linhas, primeiroId).value;
      var x := r.itens[|r.itens| - 1];
      assert r.itens == r0.itens + [x];
      assert r.itens[..|r.itens| - 1] == r0.itens;
      assert forall k :: 0 <= k < |pre| ==> linhas[k] == pre[k];
    }
  }

  /** What a line is charged. */
  function ValorItem(it: ItemPedido): int { it.precoUnitario * it.quantidade }

  /** No product a line touched is left with negative stock. */
  lemma {:induction false} ReservarSemEstoqueNegativo(estoque: Catalogo, linhas: seq<LinhaPedido>, primeiroId: int)
    requires Reservar(estoque, linhas, primeiroId).Ok?
    ensures
      var r := Reservar(estoque, linhas, primeiroId).value;
      forall k :: 0 <= k < |linhas| ==>
        linhas[k].idProduto.Some? && linhas[k].idProduto.value in r.estoque
        && r.estoque[linhas[k].idProduto.value].estoque >= 0
  {
    if linhas != [] {
      var pre := linhas[..|linhas| - 1];
      ReservarSemEstoqueNegativo(estoque, pre, primeiroId);
      ReservarEstoque(estoque, pre, primeiroId);
      assert forall k :: 0 <= k < |pre| ==> linhas[k] == pre[k];
    }
  }

  /** Every line names a product of the table, and the table holds at least the
      units all the lines together ask of that product. */
  predicate Atendivel(estoque: Catalogo, linhas: seq<LinhaPedido>)
  {
    forall k :: 0 <= k < |linhas| ==>
      && linhas[k].idProduto.Some? && linhas[k].idProduto.value in estoque
      && SomaPedida(linhas, linhas[k].idProduto.value) <= estoque[linhas[k].idProduto.value].estoque
  }

  lemma {:induction false} SomaPedidaMonotona(linhas: seq<LinhaPedido>, p: int)
    requires linhas != []
    requires QuantidadeDe(linhas[|linhas| - 1]) >= 0
    ensures SomaPedida(linhas[..|linhas| - 1], p) <= SomaPedida(linhas, p)
  {
  }

  /** Dropping a last line that asks for no negative quantity keeps an
      order satisfiable. */
  lemma AtendivelPrefixo(estoque: Catalogo, linhas: seq<LinhaPedido>)
    requires linhas != [] && QuantidadeDe(linhas[|linhas| - 1]) >= 0
    requires Atendivel(estoque, linhas)
    ensures Atendivel(estoque, linhas[..|linhas| - 1])
  {
    var pre := linhas[..|linhas| - 1];
    forall k | 0 <= k < |pre|
      ensures SomaPedida(pre, pre[k].idProduto.value) <= estoque[pre[k].idProduto.value].estoque
    {
      assert pre[k] == linhas[k];
      SomaPedidaMonotona(linhas, pre[k].idProduto.value);
    }
  }

  /** When the earlier lines went through and the whole order is satisfiable,
      the stock they left covers the last line. */
  lemma ReservarUltimaAtendida(estoque: Catalogo, linhas: seq<LinhaPedido>, primeiroId: int)
    requires linhas != [] && Atendivel(estoque, linhas)
    requires Reservar(estoque, linhas[..|linhas| - 1], primeiroId).Ok?
    ensures Reservar(estoque, linhas, primeiroId).Ok?
  {
    ReservarEstoque(estoque, linhas[..|linhas| - 1], primeiroId);
    assert linhas[|linhas| - 1].idProduto.Some?;
  }

  /** A loop that went through over an order whose earlier lines were
      satisfiable leaves the whole order satisfiable. */
  lemma ReservarOkAtendivel(estoque: Catalogo, linhas: seq<LinhaPedido>, primeiroId: int)
    requires linhas != [] && Reservar(estoque, linhas, primeiroId).Ok?
    requires Atendivel(estoque, linhas[..|linhas| - 1])
    ensures Atendivel(estoque, linhas)
  {
    var n := |linhas| - 1;
    var pre := linhas[..n];
    ReservarEstoque(estoque, pre, primeiroId);
    var p := linhas[n].idProduto.value;
    forall k | 0 <= k < |linhas|
      ensures linhas[k].idProduto.Some? && linhas[k].idProduto.value in estoque
      ensures SomaPedida(linhas, linhas[k].idProduto.value) <= estoque[linhas[k].idProduto.value].estoque
    {
      if k < n {
        assert linhas[k] == pre[k];
        if linhas[k].idProduto.value != p {
          assert SomaPedida(linhas, linhas[k].idProduto.value) == SomaPedida(pre, linhas[k].idProduto.value);
        }
      }
    }
  }

  /** With no negative quantities, the loop succeeds exactly when the order is
      satisfiable as a whole: checking each line against the stock left by the
      earlier ones is the same as checking the totals. */
  lemma {:induction false} ReservarSucessoSse(estoque: Catalogo, linhas: seq<LinhaPedido>, primeiroId: int)
    requires forall k :: 0 <= k < |linhas| ==> QuantidadeDe(linhas[k]) >= 0
    ensures Reservar(estoque, linhas, primeiroId).Ok? <==> Atendivel(estoque, linhas)
  {
    if linhas != [] {
      var pre := linhas[..|linhas| - 1];
      assert forall k :: 0 <= k < |pre| ==> linhas[k] == pre[k];
      ReservarSucessoSse(estoque, pre, primeiroId);
      if Atendivel(estoque, linhas) {
        AtendivelPrefixo(estoque, linhas);
        ReservarUltimaAtendida(estoque, linhas, primeiroId);
      }
      if Reservar(estoque, linhas, primeiroId).Ok? {
        ReservarOkAtendivel(estoque, linhas, primeiroId);
      }
    }
  }

  /** A line naming no known product makes the loop fail. */
  lemma ReservarProdutoDesconhecido(estoque: Catalogo, linhas: seq<LinhaPedido>, primeiroId: int, k: nat)
    requires k < |linhas|
    requires linhas[k].idProduto.None? || linhas[k].idProduto.value !in estoque
    ensures Reservar(estoque, linhas, primeiroId).Err?
  {
    var pre := linhas[..k + 1];
    assert pre[..k] == linhas[..k];
    assert pre[k] == linhas[k];
    if Reservar(estoque, linhas[..k], primeiroId).Ok? {
      ReservarEstoque(estoque, linhas[..k], primeiroId);
    }
    assert Reservar(estoque, pre, primeiroId).Err?;
    ReservarErroPropaga(estoque, linhas, k + 1, primeiroId);
  }

  /** A created order's total is the reservation's running total. */
  lemma CriarPedidoTotal(usuarios: set<int>, estoque: Catalogo, payload: PayloadPedido, primeiroId: int)
    requires CriarPedidoSpec(usuarios, estoque, payload, primeiroId).Ok?
    ensures Reservar(estoque, payload.itens, primeiroId).Ok?
    ensures CriarPedidoSpec(usuarios, estoque, payload, primeiroId).value.0.valorTotal
            == Reservar(estoque, payload.itens, primeiroId).value.total
  {
  }

  /** Missing or zero user, or no lines: rejected before anything else; a
      user id that is given but unknown is the next error. */
  lemma CriarPedidoDadosObrigatorios(usuarios: set<int>, estoque: Catalogo, payload: PayloadPedido, primeiroId: int)
    ensures payload.idUsuario.None? || payload.idUsuario == Some(0) || payload.itens == [] <==>
            CriarPedidoSpec(usuarios, estoque, payload, primeiroId) == Err(DadosObrigatorios)
    ensures CriarPedidoSpec(usuarios, estoque, payload, primeiroId) == Err(UsuarioNaoEncontrado) <==>
            payload.idUsuario.Some? && payload.idUsuario.value != 0 && payload.itens != [] && payload.idUsuario.value !in usuarios
  {
    ReservarSoFalhaPorProduto(estoque, payload.itens, primeiroId);
  }

  /** The loop only ever fails on a product: unknown or short of stock. */
  lemma {:induction false} ReservarSoFalhaPorProduto(estoque: Catalogo, linhas: seq<LinhaPedido>, primeiroId: int)
    ensures Reservar(estoque, linhas, primeiroId).Err? ==>
      Reservar(estoque, linhas, primeiroId).error.ProdutoNaoEncontrado? || Reservar(estoque, linhas, primeiroId).error.ProdutoSemEstoque?
  {
    if linhas != [] {
      ReservarSoFalhaPorProduto(estoque, linhas[..|linhas| - 1], primeiroId);
    }
  }

  /** A placed order waits for payment, holds one item per line and is worth
      the sum of its items, but carries no number, no item names, no item
      subtotals and a subtotal of 0: criar_pedido assigns none of them. */
  lemma CriarPedidoResultado(usuarios: set<int>, estoque: Catalogo, payload: PayloadPedido, primeiroId: int)
    requires CriarPedidoSpec(usuarios, estoque, payload, primeiroId).Ok?
    ensures
      var (d, _) := CriarPedidoSpec(usuarios, estoque, payload, primeiroId).value;
      && payload.idUsuario.Some? && d.idUsuario == payload.idUsuario.value && d.idUsuario in usuarios
      && d.status == AguardandoPagamento && |d.itens| == |payload.itens|
      && d.valorTotal == Soma(d.itens, ValorItem)
      && d.numeroPedido.None? && d.subtotal == 0
      && (forall k :: 0 <= k < |d.itens| ==> d.itens[k].nomeProduto.None? && d.itens[k].subtotal.None?)
      && !d.SubtotaisDefinidos()
  {
    ReservarItens(estoque, payload.itens, primeiroId);
    var (d, _) := CriarPedidoSpec(usuarios, estoque, payload, primeiroId).value;
    assert d.itens[0].subtotal.None?;
  }

  /** Placing an order and then cancelling it gives every product its stock
      back: the cancellation is allowed and restores the original table. */
  lemma CriarCancelarRestauraEstoque(usuarios: set<int>, estoque: Catalogo, payload: PayloadPedido,
                                     primeiroId: int, motivo: Option<string>)
    requires CriarPedidoSpec(usuarios, estoque, payload, primeiroId).Ok?
    ensures
      var (d, e) := CriarPedidoSpec(usuarios, estoque, payload, primeiroId).value;
      && d.Cancelar(motivo).Ok?
      && (forall i :: 0 <= i < |d.itens| ==> d.itens[i].idProduto in e)
      && DevolverEstoque(e, d.itens) == estoque
  {
    var r := Reservar(estoque, payload.itens, primeiroId).value;
    var d := CriarPedidoSpec(usuarios, estoque, payload, primeiroId).value.0;
    assert d.status == AguardandoPagamento;
    CancelarEfeito(d, motivo, None);
    ReservarEstoque(estoque, payload.itens, primeiroId);
    ReservarItens(estoque, payload.itens, primeiroId);
    assert forall i :: 0 <= i < |r.itens| ==> r.itens[i].idProduto in r.estoque;
    var volta := DevolverEstoque(r.estoque, r.itens);
    forall p | p in estoque
      ensures volta[p] == estoque[p]
    {
      DevolverEstoqueQuantidades(r.estoque, r.itens, p);
    }
    assert volta == estoque;
  }

  // ---------------------------------------------------------------------------
  // Scenarios
  // ---------------------------------------------------------------------------

  const Bolo: Produto := Produto("Cupcake de baunilha", 800, 800, 5, true)

  /** Buying 3 of 5 cupcakes leaves 2 and costs 3 times the price. */
  lemma CenarioCompraSimples()
    ensures
      var r := CriarPedidoSpec({7}, map[1 := Bolo], PayloadPedido(Some(7), [LinhaPedido(Some(1), Some(3))]), 100);
      r.Ok? && r.value.1[1].estoque == 2 && r.value.0.valorTotal == 2400
  {
    var e := map[1 := Bolo];
    var l := LinhaPedido(Some(1), Some(3));
    assert [l][..0] == [];
    assert AjustarEstoque(e, 1, -3) == e[1 := Bolo.(estoque := 2)];
    var r := ReservarLinha(Reserva([], e, 0), l, 100);
    assert r.value.itens == [ItemPedido(100, 1, None, 3, 800, None, None)];
    assert Reservar(e, [l], 100) == r;
  }

  /** Lines draw on the stock the earlier lines left: 3, then 1 by default, then 2 more than the 1 left. */
  lemma CenarioEstoqueAcumulado()
    ensures
      CriarPedidoSpec({7}, map[1 := Bolo],
                      PayloadPedido(Some(7), [LinhaPedido(Some(1), Some(3)), LinhaPedido(Some(1), None), LinhaPedido(Some(1), Some(2))]), 100)
      == Err(ProdutoSemEstoque("Cupcake de baunilha"))
  {
    var a, b, c := LinhaPedido(Some(1), Some(3)), LinhaPedido(Some(1), None), LinhaPedido(Some(1), Some(2));
    var linhas := [a, b, c];
    var e := map[1 := Bolo];
    assert linhas[..2] == [a, b] && [a, b][..1] == [a] && [a][..0] == [];
    assert AjustarEstoque(e, 1, -3) == e[1 := Bolo.(estoque := 2)];
    var r1 := ReservarLinha(Reserva([], e, 0), a, 100);
    assert r1.value.estoque[1].estoque == 2;
    assert Reservar(e, [a], 100) == r1;
    var r2 := ReservarLinha(r1.value, b, 101);
    assert r2.value.estoque[1].estoque == 1;
    assert Reservar(e, [a, b], 100) == r2;
    assert Reservar(e, linhas, 100) == Err(ProdutoSemEstoque(Bolo.nome));
  }
}
