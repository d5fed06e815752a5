/** One order line (`ItemPedido`). The repository defines this class twice,
    in models/pedido.py and in models/item_pedido.py; the package exports the
    second, so this one datatype carries the union of their methods and follows
    item_pedido.py where the two differ. Each method that assigns fields of the
    item is a function returning the item's new state. */
module ItensPedido {
  import opened Base
  import opened Produtos

  /** `observacoes` is a String(255) column and adicionar_observacao enforces it. */
  const MaxObservacao: nat := 255

  datatype ErroItem =
    | QuantidadeNaoPositiva           // "Quantidade deve ser positiva"
    | EstoqueInsuficiente(disponivel: int)
    | PrecoNaoPositivo                // "Preço deve ser positivo"
    | ObservacaoLonga                 // "Observação muito longa (máximo 255 caracteres)"

  /** `nome_produto` and `subtotal` are None until some code assigns them:
      criar_pedido never does. */
  datatype ItemPedido = ItemPedido(
    idItem: int,
    idProduto: int,
    nomeProduto: Option<string>,
    quantidade: int,
    precoUnitario: int,
    subtotal: Option<int>,
    observacoes: Option<string>)
  {
    /** The invariant every successful mutator re-establishes. */
    predicate Consistente() { subtotal == Some(precoUnitario * quantidade) }

    /** `validar_quantidade`: a positive quantity the attached product (if any) can cover. */
    predicate ValidarQuantidade(q: int, produto: Option<Produto>)
    {
      q > 0 && (produto.Some? ==> produto.value.VerificarEstoque(q))
    }

    /** `calcular_subtotal`. */
    function CalcularSubtotal(): (r: ItemPedido)
      ensures r.Consistente()
      ensures r.quantidade == quantidade && r.precoUnitario == precoUnitario
      ensures r == this.(subtotal := r.subtotal)
    {
      this.(subtotal := Some(precoUnitario * quantidade))
    }

    /** `atualizar_quantidade`; `produto` is the attached product, None when there is none. */
    function AtualizarQuantidade(q: int, produto: Option<Produto>): (r: Result<ItemPedido, ErroItem>)
      ensures r.Ok? <==> ValidarQuantidade(q, produto)
      ensures q <= 0 ==> r == Err(QuantidadeNaoPositiva)
      ensures q > 0 && r.Err? ==> r.error == EstoqueInsuficiente(produto.value.estoque)
      ensures r.Ok? ==> r.value.Consistente() && r.value.quantidade == q
      ensures r.Ok? ==> r.value == this.(quantidade := q, subtotal := r.value.subtotal)
    {
      if q <= 0 then Err(QuantidadeNaoPositiva)
      else if produto.Some? && !produto.value.VerificarEstoque(q) then Err(EstoqueInsuficiente(produto.value.estoque))
      else Ok(this.(quantidade := q).CalcularSubtotal())
    }

    /** `atualizar_preco`. */
    function AtualizarPreco(novoPreco: int): (r: Result<ItemPedido, ErroItem>)
      ensures r.Ok? <==> novoPreco > 0
      ensures r.Err? ==> r.error == PrecoNaoPositivo
      ensures r.Ok? ==> r.value.Consistente() && r.value.precoUnitario == novoPreco
      ensures r.Ok? ==> r.value == this.(precoUnitario := novoPreco, subtotal := r.value.subtotal)
    {
      if novoPreco <= 0 then Err(PrecoNaoPositivo)
      else Ok(this.(precoUnitario := novoPreco).CalcularSubtotal())
    }

    /** `adicionar_observacao`: Python's `len` counts characters, as `|s|` does. */
    function AdicionarObservacao(observacao: string): (r: Result<ItemPedido, ErroItem>)
      ensures r.Ok? <==> |observacao| <= MaxObservacao
      ensures r.Err? ==> r.error == ObservacaoLonga
      ensures r.Ok? ==> r.value == this.(observacoes := Some(observacao))
    {
      if |observacao| > MaxObservacao then Err(ObservacaoLonga)
      else Ok(this.(observacoes := Some(observacao)))
    }
  }

  /** Every successful mutator leaves subtotal == preco_unitario * quantidade:
      the quantity and price setters re-establish it, and the note setter
      keeps it. */
  lemma MutadoresPreservamSubtotal(it: ItemPedido, q: int, produto: Option<Produto>, preco: int, obs: string)
    ensures it.AtualizarQuantidade(q, produto).Ok? ==> it.AtualizarQuantidade(q, produto).value.Consistente()
    ensures it.AtualizarPreco(preco).Ok? ==> it.AtualizarPreco(preco).value.Consistente()
    ensures it.Consistente() && it.AdicionarObservacao(obs).Ok? ==> it.AdicionarObservacao(obs).value.Consistente()
  {
  }
}
