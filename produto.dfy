/** The product record the order code reads and writes. The product model
    itself (models/produto.py) is not part of this model: only the fields the
    core touches are kept, with prices in integer cents. */
module Produtos {

  datatype Produto = Produto(
    nome: string,
    preco: int,        // `produto.preco`, what criar_pedido snapshots
    precoFinal: int,   // `produto.preco_final`, what adicionar_item snapshots
    estoque: int,      // units in stock
    ativo: bool)
  {
    /** `verificar_estoque(q)`: the stock covers `q` units. */
    predicate VerificarEstoque(q: int) { q <= estoque }
  }

  /** The product table: product id to product. */
  type Catalogo = map<int, Produto>

  /** The product table after product `id` gains `q` units (a negative `q` takes units away). */
  function AjustarEstoque(c: Catalogo, id: int, q: int): (r: Catalogo)
    requires id in c
    ensures r.Keys == c.Keys
    ensures r[id] == c[id].(estoque := c[id].estoque + q)
    ensures forall j :: j in c && j != id ==> r[j] == c[j]
  {
    c[id := c[id].(estoque := c[id].estoque + q)]
  }
}
