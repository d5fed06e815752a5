/** The order (models/pedido.py, class Pedido). The order object is a class
    whose methods assign its fields; each method is specified by a function on
    a snapshot of those fields (`DadosPedido`), and the lemmas about those
    functions state what the order promises. Money is integer cents. */
module Pedidos {
  import opened Base
  import opened Texto
  import opened Produtos
  import opened ItensPedido

  // ---------------------------------------------------------------------------
  // Status
  // ---------------------------------------------------------------------------

  datatype StatusPedido =
    | AguardandoPagamento | Pago | EmPreparo | Pronto | SaiuParaEntrega
    | Entregue | Cancelado | Reembolsado

  /** The label the `status_pedido_enum` column stores. */
  function NomeStatus(s: StatusPedido): string
  {
    match s
    case AguardandoPagamento => "Aguardando pagamento"
    case Pago => "Pago"
    case EmPreparo => "Em preparo"
    case Pronto => "Pronto"
    case SaiuParaEntrega => "Saiu para entrega"
    case Entregue => "Entregue"
    case Cancelado => "Cancelado"
    case Reembolsado => "Reembolsado"
  }

  /** The `status_validos` test of atualizar_status: the status a label names,
      None for a label outside the list. */
  function StatusDeNome(nome: string): Option<StatusPedido>
  {
    if nome == "Aguardando pagamento" then Some(AguardandoPagamento)
    else if nome == "Pago" then Some(Pago)
    else if nome == "Em preparo" then Some(EmPreparo)
    else if nome == "Pronto" then Some(Pronto)
    else if nome == "Saiu para entrega" then Some(SaiuParaEntrega)
    else if nome == "Entregue" then Some(Entregue)
    else if nome == "Cancelado" then Some(Cancelado)
    else if nome == "Reembolsado" then Some(Reembolsado)
    else None
  }

  /** The accepted labels are exactly the enum's labels, one per status. */
  lemma StatusDeNomeBijecao(s: StatusPedido, nome: string)
    ensures StatusDeNome(NomeStatus(s)) == Some(s)
    ensures StatusDeNome(nome).Some? ==> NomeStatus(StatusDeNome(nome).value) == nome
  {
  }

  // ---------------------------------------------------------------------------
  // Order numbers
  // ---------------------------------------------------------------------------

  const Prefixo: string := "LCC"

  /** Python's `format(n, "06d")`: zero padding to six characters, sign included. */
  function Formatar06d(n: int): (s: string)
    ensures |s| >= 6
    ensures n >= 0 ==> AllDigits(s)
  {
    if n < 0 then "-" + ZeroPad(NatToString(-n), 5) else ZeroPad(NatToString(n), 6)
  }

  /** The number of the `n`-th order of year `ano`, as `LCC-2025-000001`. */
  function NumeroPedido(ano: nat, n: int): string
  {
    Prefixo + "-" + NatToString(ano) + "-" + Formatar06d(n)
  }

  /** The sequence number following `ultimo`, the number of the year's latest
      order (None when the year has none yet); None where `int()` raises. */
  function ProximoNumero(ultimo: Option<string>): Option<int>
  {
    match ultimo
    case None => Some(1)
    case Some(numero) =>
      var partes := Split(numero, '-');
      if |partes| == 3 then
        match PyInt(partes[2])
        case None => None
        case Some(v) => Some(v + 1)
      else Some(1)
  }

  /** `gerar_numero_pedido`, with the current year and the database lookup of
      the year's latest order number as parameters. */
  function GerarNumeroPedido(ano: nat, ultimo: Option<string>): Option<string>
  {
    match ProximoNumero(ultimo)
    case None => None
    case Some(n) => Some(NumeroPedido(ano, n))
  }

  /** A year's first order is number 000001. */
  lemma GerarPrimeiroDoAno(ano: nat)
    ensures GerarNumeroPedido(ano, None) == Some(Prefixo + "-" + NatToString(ano) + "-000001")
  {
    assert NatToString(1) == "1";
    assert Zeros(1) == "0" && Zeros(2) == "00" && Zeros(3) == "000";
    assert Zeros(4) == "0000" && Zeros(5) == "00000";
    assert Formatar06d(1) == "000001";
    var y := Prefixo + "-" + NatToString(ano);
    assert y + "-" + "000001" == y + "-000001";
  }

  /** A generated number splits on '-' into prefix, year and padded sequence number. */
  lemma NumeroPedidoPartes(ano: nat, n: nat)
    ensures Split(NumeroPedido(ano, n), '-') == [Prefixo, NatToString(ano), Formatar06d(n)]
  {
    var y := NatToString(ano);
    var z := Formatar06d(n);
    assert '-' !in Prefixo;
    assert '-' !in y by {
      forall i | 0 <= i < |y| ensures y[i] != '-' { assert IsDigit(y[i]); }
    }
    assert '-' !in z by {
      forall i | 0 <= i < |z| ensures z[i] != '-' { assert IsDigit(z[i]); }
    }
    assert NumeroPedido(ano, n) == Prefixo + ['-'] + (y + ['-'] + z);
    SplitAt(Prefixo, '-', y + ['-'] + z);
    SplitAt(y, '-', z);
    SplitNoSeparator(z, '-');
  }

  /** `int()` reads a padded sequence number back. */
  lemma Formatar06dLido(n: nat)
    ensures PyInt(Formatar06d(n)) == Some(n)
  {
    PyIntDigits(Formatar06d(n));
    ParseZeroPad(NatToString(n), 6);
    ParseNatToString(n);
  }

  /** Reading back a generated number yields its sequence number plus one. */
  lemma {:induction false} LerNumeroPedido(ano: nat, n: nat)
    ensures ProximoNumero(Some(NumeroPedido(ano, n))) == Some(n + 1)
  {
    NumeroPedidoPartes(ano, n);
    Formatar06dLido(n);
  }

  /** Every sequence number the generator hands out is at least 1. */
  lemma ProximoNumeroPositivo(ultimo: Option<string>)
    ensures ProximoNumero(ultimo).Some? ==> ProximoNumero(ultimo).value >= 1
  {
    if ultimo.Some? {
      var partes := Split(ultimo.value, '-');
      SplitPartsFree(ultimo.value, '-');
      if |partes| == 3 {
        PyIntNoMinus(partes[2]);
      }
    }
  }

  /** Successive calls number the year's orders consecutively: when the
      generator hands out counter `n`, fed its own output it answers `n + 1`. */
  lemma GerarNumeroPedidoSequencial(ano: nat, ultimo: Option<string>, n: nat)
    requires ProximoNumero(ultimo) == Some(n)
    ensures GerarNumeroPedido(ano, ultimo) == Some(NumeroPedido(ano, n))
    ensures GerarNumeroPedido(ano, GerarNumeroPedido(ano, ultimo)) == Some(NumeroPedido(ano, n + 1))
  {
    var x := NumeroPedido(ano, n);
    GerarDeProximo(ano, ultimo, n);
    LerNumeroPedido(ano, n);
    GerarDeProximo(ano, Some(x), n + 1);
  }

  lemma GerarDeProximo(ano: nat, ultimo: Option<string>, n: int)
    requires ProximoNumero(ultimo) == Some(n)
    ensures GerarNumeroPedido(ano, ultimo) == Some(NumeroPedido(ano, n))
  {
  }

  // ---------------------------------------------------------------------------
  // Sums and searches over the items
  // ---------------------------------------------------------------------------

  function Quantidade(it: ItemPedido): int { it.quantidade }
  function SubtotalItem(it: ItemPedido): int { it.subtotal.GetOr(0) }
  function IdItem(it: ItemPedido): int { it.idItem }
  function IdProduto(it: ItemPedido): int { it.idProduto }

  /** The sum of `f` over the items. */
  function Soma(itens: seq<ItemPedido>, f: ItemPedido -> int): int
  {
    if itens == [] then 0 else Soma(itens[..|itens| - 1], f) + f(itens[|itens| - 1])
  }

  lemma {:induction false} SomaConcat(a: seq<ItemPedido>, b: seq<ItemPedido>, f: ItemPedido -> int)
    ensures Soma(a + b, f) == Soma(a, f) + Soma(b, f)
  {
    if b == [] {
      assert a + b == a;
    } else {
      assert (a + b)[..|a + b| - 1] == a + b[..|b| - 1];
      SomaConcat(a, b[..|b| - 1], f);
    }
  }

  lemma SomaUm(x: ItemPedido, f: ItemPedido -> int)
    ensures Soma([x], f) == f(x)
  {
    assert [x][..0] == [];
  }

  /** A sequence is its part before `k`, its `k`-th element and the rest. */
  lemma Partir<T>(s: seq<T>, k: nat)
    requires k < |s|
    ensures s == s[..k] + [s[k]] + s[k + 1..]
  {
  }

  lemma SomaRemover(s: seq<ItemPedido>, k: nat, f: ItemPedido -> int)
    requires k < |s|
    ensures Soma(s[..k] + s[k + 1..], f) == Soma(s, f) - f(s[k])
  {
    var a, b := s[..k], s[k + 1..];
    Partir(s, k);
    SomaConcat(a + [s[k]], b, f);
    SomaConcat(a, [s[k]], f);
    SomaUm(s[k], f);
    SomaConcat(a, b, f);
  }

  lemma SomaSubstituir(s: seq<ItemPedido>, k: nat, x: ItemPedido, f: ItemPedido -> int)
    requires k < |s|
    ensures Soma(s[k := x], f) == Soma(s, f) - f(s[k]) + f(x)
  {
    Partir(s, k);
    Partir(s[k := x], k);
    assert s[k := x][..k] == s[..k] && s[k := x][k + 1..] == s[k + 1..];
    SomaConcat(s[..k] + [s[k]], s[k + 1..], f);
    SomaConcat(s[..k], [s[k]], f);
    SomaConcat(s[..k] + [x], s[k + 1..], f);
    SomaConcat(s[..k], [x], f);
  }

  /** The index of the first item whose `chave` is `v`, |itens| when none is:
      `filter_by(...).first()` over items kept in `id_item` order. */
  function PrimeiroCom(itens: seq<ItemPedido>, chave: ItemPedido -> int, v: int): (k: nat)
    ensures k <= |itens|
    ensures k < |itens| ==> chave(itens[k]) == v
    ensures forall j :: 0 <= j < k ==> chave(itens[j]) != v
  {
    if itens == [] then 0
    else if chave(itens[0]) == v then 0
    else 1 + PrimeiroCom(itens[1..], chave, v)
  }

  /** Item ids strictly increase along the list (the relationship orders by `id_item`). */
  predicate IdsCrescentes(itens: seq<ItemPedido>)
  {
    forall i, j :: 0 <= i < j < |itens| ==> itens[i].idItem < itens[j].idItem
  }

  /** No product appears on two items. */
  predicate ProdutosDistintos(itens: seq<ItemPedido>)
  {
    forall i, j :: 0 <= i < j < |itens| ==> itens[i].idProduto != itens[j].idProduto
  }

  /** Units of product `id` over all items. */
  function QuantidadeDoProduto(itens: seq<ItemPedido>, id: int): int
  {
    if itens == [] then 0
    else
      var it := itens[|itens| - 1];
      QuantidadeDoProduto(itens[..|itens| - 1], id) + (if it.idProduto == id then it.quantidade else 0)
  }

  /** The product table after every item's units go back to its product, the
      loop of cancelar. */
  function DevolverEstoque(estoque: Catalogo, itens: seq<ItemPedido>): (r: Catalogo)
    requires forall i :: 0 <= i < |itens| ==> itens[i].idProduto in estoque
    ensures r.Keys == estoque.Keys
  {
    if itens == [] then estoque
    else
      var it := itens[|itens| - 1];
      AjustarEstoque(DevolverEstoque(estoque, itens[..|itens| - 1]), it.idProduto, it.quantidade)
  }

  /** Each product regains exactly the units its items hold; nothing else changes. */
  /** The loop of `cancelar` that gives every item's units back, one item at a time. */
  method DevolverItens(estoque: Catalogo, itens: seq<ItemPedido>) returns (novo: Catalogo)
    requires forall i :: 0 <= i < |itens| ==> itens[i].idProduto in estoque
    ensures novo == DevolverEstoque(estoque, itens)
  {
    novo := estoque;
    var i := 0;
    while i < |itens|
      invariant 0 <= i <= |itens|
      invariant novo == DevolverEstoque(estoque, itens[..i])
    {
      assert itens[..i + 1][..i] == itens[..i];
      novo := AjustarEstoque(novo, itens[i].idProduto, itens[i].quantidade);
      i := i + 1;
    }
    assert itens[..|itens|] == itens;
  }

  lemma {:induction false} DevolverEstoqueQuantidades(estoque: Catalogo, itens: seq<ItemPedido>, id: int)
    requires forall i :: 0 <= i < |itens| ==> itens[i].idProduto in estoque
    requires id in estoque
    ensures DevolverEstoque(estoque, itens)[id]
         == estoque[id].(estoque := estoque[id].estoque + QuantidadeDoProduto(itens, id))
  {
    if itens != [] {
      DevolverEstoqueQuantidades(estoque, itens[..|itens| - 1], id);
    }
  }

  // ---------------------------------------------------------------------------
  // Totals
  // ---------------------------------------------------------------------------

  /** `calcular_total`: subtotal plus delivery fee minus discount, floored at zero. */
  function TotalPedido(subtotal: int, taxa: int, desconto: int): (t: int)
    ensures t >= 0 && t >= subtotal + taxa - desconto
    ensures t == subtotal + taxa - desconto || t == 0
  {
    if subtotal + taxa - desconto < 0 then 0 else subtotal + taxa - desconto
  }

  // ---------------------------------------------------------------------------
  // The order's state and the functions that specify its methods
  // ---------------------------------------------------------------------------

  datatype ErroPedido =
    | DescontoNegativo                      // "Desconto não pode ser negativo"
    | DescontoAcimaDoSubtotal               // "Desconto não pode ser maior que o subtotal"
    | TaxaNegativa                          // "Taxa de entrega não pode ser negativa"
    | QuantidadeDeveSerPositiva             // "Quantidade deve ser positiva"
    | EstoqueInsuficientePara(nome: string) // "Estoque insuficiente para ..."
    | ItemNaoEncontrado                     // "Item não encontrado no pedido"
    | StatusInvalido(rotulo: string)        // "Status '...' inválido"
    | PagamentoNaoPermitido(atual: StatusPedido)
    | CancelamentoNaoPermitido(atual: StatusPedido)
    | AvaliacaoNaoPermitida                 // "Este pedido não pode ser avaliado"
    | NotaForaDoIntervalo                   // "Avaliação deve estar entre 1 e 5"

  /** `observacoes` after atualizar_status: a non-empty note is appended on a
      new line as `<status>: <note>` and the whole text stripped. */
  function AnotarObservacao(atual: Option<string>, rotulo: string, observacao: Option<string>): Option<string>
  {
    if observacao.Some? && observacao.value != [] then
      Some(PyStrip(atual.GetOr("") + "\n" + rotulo + ": " + observacao.value))
    else atual
  }

  /** The note that cancelar passes on: the reason, or a default when it is empty. */
  function MotivoCancelamento(motivo: Option<string>): string
  {
    if motivo.Some? && motivo.value != [] then motivo.value else "Pedido cancelado"
  }

  /** The fields of an order the core reads or writes (`data_avaliacao` in seconds). */
  datatype DadosPedido = DadosPedido(
    idUsuario: int,
    numeroPedido: Option<string>,
    subtotal: int,
    desconto: int,
    taxaEntrega: int,
    valorTotal: int,
    status: StatusPedido,
    formaPagamento: Option<string>,
    observacoes: Option<string>,
    avaliacao: Option<int>,
    comentarioAvaliacao: Option<string>,
    dataAvaliacao: Option<int>,
    itens: seq<ItemPedido>)
  {
    /** Every item has a subtotal, so `calcular_subtotal` can add them up. */
    predicate SubtotaisDefinidos()
    {
      forall i :: 0 <= i < |itens| ==> itens[i].subtotal.Some?
    }

    /** The invariant the order's methods keep: consistent items in id order,
        non-negative fee and discount, stored totals that match the items, and
        a rating in 1..5 if any. */
    predicate Valid()
    {
      && SubtotaisDefinidos()
      && Consistentes(itens)
      && IdsCrescentes(itens)
      && desconto >= 0 && taxaEntrega >= 0
      && subtotal == CalcularSubtotal()
      && valorTotal == CalcularTotal()
      && (avaliacao.Some? ==> 1 <= avaliacao.value <= 5)
    }

    predicate PodeSerCancelado() { status in {AguardandoPagamento, Pago, EmPreparo} }
    predicate PodeSerAvaliado() { status == Entregue && avaliacao.None? }
    predicate EstaFinalizado() { status in {Entregue, Cancelado, Reembolsado} }

    /** `quantidade_itens`. */
    function QuantidadeItens(): int { Soma(itens, Quantidade) }

    /** `calcular_subtotal`. */
    function CalcularSubtotal(): int
      requires SubtotaisDefinidos()
    {
      Soma(itens, SubtotalItem)
    }

    /** `calcular_total`. */
    function CalcularTotal(): int
      requires SubtotaisDefinidos()
    {
      TotalPedido(CalcularSubtotal(), taxaEntrega, desconto)
    }

    /** `recalcular_valores`. */
    function RecalcularValores(): DadosPedido
      requires SubtotaisDefinidos()
    {
      this.(subtotal := CalcularSubtotal(), valorTotal := CalcularTotal())
    }

    /** `aplicar_desconto`: the bound is the STORED subtotal. */
    function AplicarDesconto(valor: int): Result<DadosPedido, ErroPedido>
      requires SubtotaisDefinidos()
    {
      if valor < 0 then Err(DescontoNegativo)
      else if valor > subtotal then Err(DescontoAcimaDoSubtotal)
      else Ok(this.(desconto := valor).RecalcularValores())
    }

    /** `definir_taxa_entrega`. */
    function DefinirTaxaEntrega(taxa: int): Result<DadosPedido, ErroPedido>
      requires SubtotaisDefinidos()
    {
      if taxa < 0 then Err(TaxaNegativa)
      else Ok(this.(taxaEntrega := taxa).RecalcularValores())
    }

    /** The unit price adicionar_item ends up charging for the added units: the
        existing item's own price when the product is already on the order,
        else the given price or the product's final price. */
    function PrecoAplicado(idProduto: int, produto: Produto, preco: Option<int>): int
    {
      var k := PrimeiroCom(itens, IdProduto, idProduto);
      if k < |itens| then itens[k].precoUnitario else preco.GetOr(produto.precoFinal)
    }

    /** `adicionar_item`; `novoId` is the id the database gives a new item. */
    function AdicionarItem(idProduto: int, produto: Produto, quantidade: int, preco: Option<int>,
                           obs: Option<string>, novoId: int): Result<DadosPedido, ErroPedido>
      requires SubtotaisDefinidos()
    {
      if quantidade <= 0 then Err(QuantidadeDeveSerPositiva)
      else if !produto.VerificarEstoque(quantidade) then Err(EstoqueInsuficientePara(produto.nome))
      else
        Ok(this.(itens := ItensComAdicao(itens, idProduto, produto, quantidade, preco, obs, novoId))
               .RecalcularValores())
    }

    /** `remover_item`. */
    function RemoverItem(idItem: int): Result<DadosPedido, ErroPedido>
      requires SubtotaisDefinidos()
    {
      var k := PrimeiroCom(itens, IdItem, idItem);
      if k == |itens| then Err(ItemNaoEncontrado)
      else Ok(this.(itens := itens[..k] + itens[k + 1..]).RecalcularValores())
    }

    /** `atualizar_status`. */
    function AtualizarStatus(rotulo: string, observacao: Option<string>): Result<DadosPedido, ErroPedido>
    {
      match StatusDeNome(rotulo)
      case None => Err(StatusInvalido(rotulo))
      case Some(s) => Ok(this.(status := s, observacoes := AnotarObservacao(observacoes, rotulo, observacao)))
    }

    /** `confirmar_pagamento`. */
    function ConfirmarPagamento(forma: string): Result<DadosPedido, ErroPedido>
    {
      if status != AguardandoPagamento then Err(PagamentoNaoPermitido(status))
      else this.(formaPagamento := Some(forma)).AtualizarStatus("Pago", Some("Pagamento confirmado"))
    }

    /** `cancelar`, apart from the stock it returns (DevolverEstoque). */
    function Cancelar(motivo: Option<string>): Result<DadosPedido, ErroPedido>
    {
      if !PodeSerCancelado() then Err(CancelamentoNaoPermitido(status))
      else AtualizarStatus("Cancelado", Some(MotivoCancelamento(motivo)))
    }

    /** `adicionar_avaliacao`; `agora` stands for `datetime.utcnow()`. */
    function AdicionarAvaliacao(nota: int, comentario: Option<string>, agora: int): Result<DadosPedido, ErroPedido>
    {
      if !PodeSerAvaliado() then Err(AvaliacaoNaoPermitida)
      else if nota < 1 || nota > 5 then Err(NotaForaDoIntervalo)
      else Ok(this.(avaliacao := Some(nota), comentarioAvaliacao := comentario, dataAvaliacao := Some(agora)))
    }
  }

  /** An item with `q` more units and its subtotal recomputed. */
  function Somado(it: ItemPedido, q: int): ItemPedido
  {
    it.(quantidade := it.quantidade + q).CalcularSubtotal()
  }

  /** The items after adicionar_item: the product's first item gains the units,
      or a new item with the given or final price goes at the end. */
  function ItensComAdicao(itens: seq<ItemPedido>, idProduto: int, produto: Produto, quantidade: int,
                          preco: Option<int>, obs: Option<string>, novoId: int): seq<ItemPedido>
  {
    var k := PrimeiroCom(itens, IdProduto, idProduto);
    if k < |itens| then itens[k := Somado(itens[k], quantidade)]
    else itens + [ItemPedido(novoId, idProduto, Some(produto.nome), quantidade,
                             preco.GetOr(produto.precoFinal), None, obs).CalcularSubtotal()]
  }

  /** A new order with the column defaults. */
  function PedidoNovo(idUsuario: int, numeroPedido: Option<string>): (d: DadosPedido)
    ensures d.Valid()
    ensures d.status == AguardandoPagamento && d.itens == [] && d.valorTotal == 0
  {
    DadosPedido(idUsuario, numeroPedido, 0, 0, 0, 0, AguardandoPagamento, None, None, None, None, None, [])
  }

  // ---------------------------------------------------------------------------
  // What the order promises
  // ---------------------------------------------------------------------------

  /** The flags partition sensibly: a cancellable order is not finished, and a
      rateable order is finished. */
  lemma EstadosDoPedido(d: DadosPedido)
    ensures !(d.PodeSerCancelado() && d.EstaFinalizado())
    ensures d.PodeSerAvaliado() ==> d.EstaFinalizado()
  {
  }

  /** Recalculating makes the stored totals match the items and keeps the invariant. */
  lemma RecalcularValoresValido(d: DadosPedido)
    requires d.SubtotaisDefinidos() && Consistentes(d.itens)
    requires IdsCrescentes(d.itens) && d.desconto >= 0 && d.taxaEntrega >= 0
    requires d.avaliacao.Some? ==> 1 <= d.avaliacao.value <= 5
    ensures d.RecalcularValores().Valid()
  {
  }

  /** A discount is accepted exactly when it lies between 0 and the subtotal;
      then the total is subtotal + fee - discount, with nothing to floor. */
  lemma AplicarDescontoEfeito(d: DadosPedido, valor: int)
    requires d.Valid()
    ensures d.AplicarDesconto(valor).Ok? <==> 0 <= valor <= d.subtotal
    ensures valor < 0 ==> d.AplicarDesconto(valor) == Err(DescontoNegativo)
    ensures d.AplicarDesconto(valor).Ok? ==>
      var e := d.AplicarDesconto(valor).value;
      e.Valid() && e.desconto == valor && e.subtotal == d.subtotal && e.itens == d.itens
      && e.valorTotal == d.subtotal + d.taxaEntrega - valor
  {
  }

  /** A fee is accepted exactly when it is non-negative, and the invariant survives it. */
  lemma DefinirTaxaEntregaEfeito(d: DadosPedido, taxa: int)
    requires d.Valid()
    ensures d.DefinirTaxaEntrega(taxa).Ok? <==> taxa >= 0
    ensures d.DefinirTaxaEntrega(taxa).Ok? ==>
      var e := d.DefinirTaxaEntrega(taxa).value;
      e.Valid() && e.taxaEntrega == taxa && e.subtotal == d.subtotal
      && e.valorTotal == TotalPedido(d.subtotal, taxa, d.desconto)
  {
  }

  /** adicionar_item fails exactly on a non-positive quantity or short stock. */
  lemma AdicionarItemCondicoes(d: DadosPedido, idProduto: int, produto: Produto, quantidade: int,
                               preco: Option<int>, obs: Option<string>, novoId: int)
    requires d.SubtotaisDefinidos()
    ensures d.AdicionarItem(idProduto, produto, quantidade, preco, obs, novoId).Ok?
        <==> quantidade > 0 && quantidade <= produto.estoque
    ensures quantidade <= 0 ==>
      d.AdicionarItem(idProduto, produto, quantidade, preco, obs, novoId) == Err(QuantidadeDeveSerPositiva)
  {
  }

  predicate Consistentes(itens: seq<ItemPedido>)
  {
    forall i :: 0 <= i < |itens| ==> itens[i].Consistente()
  }

  lemma ListaSubstituir(s: seq<ItemPedido>, k: nat, x: ItemPedido)
    requires k < |s| && IdsCrescentes(s) && Consistentes(s)
    requires x.idItem == s[k].idItem && x.Consistente()
    ensures IdsCrescentes(s[k := x]) && Consistentes(s[k := x])
  {
    assert forall i :: 0 <= i < |s| ==> s[k := x][i].idItem == s[i].idItem;
  }

  lemma ListaAnexar(s: seq<ItemPedido>, x: ItemPedido)
    requires IdsCrescentes(s) && Consistentes(s)
    requires (forall i :: 0 <= i < |s| ==> s[i].idItem < x.idItem) && x.Consistente()
    ensures IdsCrescentes(s + [x]) && Consistentes(s + [x])
  {
  }

  lemma ListaRemover(s: seq<ItemPedido>, k: nat)
    requires k < |s| && IdsCrescentes(s) && Consistentes(s)
    ensures IdsCrescentes(s[..k] + s[k + 1..]) && Consistentes(s[..k] + s[k + 1..])
  {
    var r := s[..k] + s[k + 1..];
    assert forall i :: 0 <= i < |r| ==> r[i] == s[if i < k then i else i + 1];
  }

  /** Adding to a valid order, with a fresh id above every item id, keeps it valid. */
  lemma AdicionarItemValido(d: DadosPedido, idProduto: int, produto: Produto, quantidade: int,
                            preco: Option<int>, obs: Option<string>, novoId: int)
    requires d.Valid()
    requires forall i :: 0 <= i < |d.itens| ==> d.itens[i].idItem < novoId
    requires d.AdicionarItem(idProduto, produto, quantidade, preco, obs, novoId).Ok?
    ensures d.AdicionarItem(idProduto, produto, quantidade, preco, obs, novoId).value.Valid()
  {
    var novos := ItensComAdicao(d.itens, idProduto, produto, quantidade, preco, obs, novoId);
    var k := PrimeiroCom(d.itens, IdProduto, idProduto);
    if k < |d.itens| {
      ListaSubstituir(d.itens, k, Somado(d.itens[k], quantidade));
    } else {
      ListaAnexar(d.itens, ItemPedido(novoId, idProduto, Some(produto.nome), quantidade,
                                      preco.GetOr(produto.precoFinal), None, obs).CalcularSubtotal());
    }
    assert IdsCrescentes(novos) && Consistentes(novos);
    RecalcularValoresValido(d.(itens := novos));
  }

  lemma Distribui(p: int, a: int, b: int)
    ensures p * (a + b) == p * a + p * b
  {
  }

  /** Adding units to the k-th item adds them to the unit count, adds their
      price to the subtotal sum and to the product's count. */
  lemma SomasAoSomar(s: seq<ItemPedido>, k: nat, q: int)
    requires k < |s| && Consistentes(s)
    ensures Soma(s[k := Somado(s[k], q)], Quantidade) == Soma(s, Quantidade) + q
    ensures Soma(s[k := Somado(s[k], q)], SubtotalItem) == Soma(s, SubtotalItem) + s[k].precoUnitario * q
    ensures QuantidadeDoProduto(s[k := Somado(s[k], q)], s[k].idProduto)
         == QuantidadeDoProduto(s, s[k].idProduto) + q
  {
    var x := Somado(s[k], q);
    SomaSubstituir(s, k, x, Quantidade);
    SomaSubstituir(s, k, x, SubtotalItem);
    assert s[k].Consistente();
    var p, q0 := s[k].precoUnitario, s[k].quantidade;
    assert SubtotalItem(x) == p * (q0 + q);
    assert SubtotalItem(s[k]) == p * q0;
    Distribui(p, q0, q);
    QuantidadeDoProdutoSubstituir(s, k, x, s[k].idProduto);
  }

  /** Appending an item adds its units, its subtotal and its product's count. */
  lemma SomasAoAnexar(s: seq<ItemPedido>, x: ItemPedido)
    ensures Soma(s + [x], Quantidade) == Soma(s, Quantidade) + x.quantidade
    ensures Soma(s + [x], SubtotalItem) == Soma(s, SubtotalItem) + SubtotalItem(x)
    ensures QuantidadeDoProduto(s + [x], x.idProduto) == QuantidadeDoProduto(s, x.idProduto) + x.quantidade
  {
    assert (s + [x])[..|s + [x]| - 1] == s;
  }

  /** The order gains exactly the added units, of that product, at the applied
      price. */
  lemma AdicionarItemTotais(d: DadosPedido, idProduto: int, produto: Produto, quantidade: int,
                            preco: Option<int>, obs: Option<string>, novoId: int)
    requires d.Valid()
    requires d.AdicionarItem(idProduto, produto, quantidade, preco, obs, novoId).Ok?
    ensures
      var e := d.AdicionarItem(idProduto, produto, quantidade, preco, obs, novoId).value;
      && e.QuantidadeItens() == d.QuantidadeItens() + quantidade
      && e.subtotal == d.subtotal + d.PrecoAplicado(idProduto, produto, preco) * quantidade
      && QuantidadeDoProduto(e.itens, idProduto) == QuantidadeDoProduto(d.itens, idProduto) + quantidade
  {
    var novos := ItensComAdicao(d.itens, idProduto, produto, quantidade, preco, obs, novoId);
    var k := PrimeiroCom(d.itens, IdProduto, idProduto);
    if k < |d.itens| {
      SomasAoSomar(d.itens, k, quantidade);
    } else {
      var x := ItemPedido(novoId, idProduto, Some(produto.nome), quantidade,
                          preco.GetOr(produto.precoFinal), None, obs).CalcularSubtotal();
      SomasAoAnexar(d.itens, x);
    }
    assert d.AdicionarItem(idProduto, produto, quantidade, preco, obs, novoId).value
        == d.(itens := novos).RecalcularValores();
  }

  /** A product already on the order is merged into its item, not listed twice. */
  lemma AdicionarItemSemDuplicar(d: DadosPedido, idProduto: int, produto: Produto, quantidade: int,
                                 preco: Option<int>, obs: Option<string>, novoId: int)
    requires d.SubtotaisDefinidos()
    requires d.AdicionarItem(idProduto, produto, quantidade, preco, obs, novoId).Ok?
    ensures
      var e := d.AdicionarItem(idProduto, produto, quantidade, preco, obs, novoId).value;
      && |e.itens| == |d.itens| + (if PrimeiroCom(d.itens, IdProduto, idProduto) < |d.itens| then 0 else 1)
      && (ProdutosDistintos(d.itens) ==> ProdutosDistintos(e.itens))
  {
    var k := PrimeiroCom(d.itens, IdProduto, idProduto);
    if k < |d.itens| {
      assert Somado(d.itens[k], quantidade).idProduto == d.itens[k].idProduto;
    }
  }

  lemma QuantidadeDoProdutoSubstituir(s: seq<ItemPedido>, k: nat, x: ItemPedido, id: int)
    requires k < |s| && x.idProduto == s[k].idProduto
    ensures QuantidadeDoProduto(s[k := x], id)
         == QuantidadeDoProduto(s, id) + (if x.idProduto == id then x.quantidade - s[k].quantidade else 0)
  {
    if k < |s| - 1 {
      assert s[k := x][..|s| - 1] == s[..|s| - 1][k := x];
      QuantidadeDoProdutoSubstituir(s[..|s| - 1], k, x, id);
    } else {
      assert s[k := x][..|s| - 1] == s[..|s| - 1];
    }
  }

  /** remover_item fails exactly when no item has that id. */
  lemma RemoverItemCondicao(d: DadosPedido, idItem: int)
    requires d.SubtotaisDefinidos()
    ensures d.RemoverItem(idItem).Ok? <==> exists i :: 0 <= i < |d.itens| && d.itens[i].idItem == idItem
  {
    var k := PrimeiroCom(d.itens, IdItem, idItem);
    if k < |d.itens| {
      assert IdItem(d.itens[k]) == idItem;
    }
  }

  /** Removing an item keeps the order valid and takes away exactly that item's
      units and subtotal. */
  lemma RemoverItemEfeito(d: DadosPedido, idItem: int)
    requires d.Valid()
    requires d.RemoverItem(idItem).Ok?
    ensures
      var e := d.RemoverItem(idItem).value;
      var k := PrimeiroCom(d.itens, IdItem, idItem);
      && e.Valid()
      && |e.itens| == |d.itens| - 1
      && e.QuantidadeItens() == d.QuantidadeItens() - d.itens[k].quantidade
      && e.subtotal == d.subtotal - d.itens[k].precoUnitario * d.itens[k].quantidade
  {
    var k := PrimeiroCom(d.itens, IdItem, idItem);
    var resto := d.itens[..k] + d.itens[k + 1..];
    SomaRemover(d.itens, k, Quantidade);
    SomaRemover(d.itens, k, SubtotalItem);
    assert d.itens[k].Consistente();
    RemoverValido(d, k);
    assert d.RemoverItem(idItem).value == d.(itens := resto).RecalcularValores();
  }

  /** Dropping one item of a valid order and recomputing keeps it valid. */
  lemma RemoverValido(d: DadosPedido, k: nat)
    requires d.Valid() && k < |d.itens|
    ensures d.(itens := d.itens[..k] + d.itens[k + 1..]).SubtotaisDefinidos()
    ensures d.(itens := d.itens[..k] + d.itens[k + 1..]).RecalcularValores().Valid()
  {
    ListaRemover(d.itens, k);
    RecalcularValoresValido(d.(itens := d.itens[..k] + d.itens[k + 1..]));
  }

  /** atualizar_status accepts exactly the eight labels and sets that status,
      touching nothing but status and notes. */
  lemma AtualizarStatusEfeito(d: DadosPedido, rotulo: string, observacao: Option<string>)
    ensures d.AtualizarStatus(rotulo, observacao).Ok? <==> StatusDeNome(rotulo).Some?
    ensures d.AtualizarStatus(rotulo, observacao).Ok? ==>
      var e := d.AtualizarStatus(rotulo, observacao).value;
      && NomeStatus(e.status) == rotulo
      && e == d.(status := e.status, observacoes := e.observacoes)
      && (d.Valid() ==> e.Valid())
      && (observacao.None? || observacao.value == [] ==> e.observacoes == d.observacoes)
  {
  }

  /** A non-empty note that ends in a non-blank lands, as `<status>: <note>`,
      at the end of the notes. */
  lemma ConcatAssoc(a: string, b: string, c: string, d: string)
    ensures a + (b + c + d) == a + b + c + d
  {
  }

  /** Stripping a note that ends in a labelled word only drops the blanks
      in front of it. */
  lemma StripAnotacao(pre: string, rotulo: string, observacao: string)
    requires rotulo != [] && !PySpace(rotulo[0])
    requires observacao != [] && !PySpace(observacao[|observacao| - 1])
    ensures PyStrip(pre + rotulo + ": " + observacao) == TrimStart(pre, PySpace) + rotulo + ": " + observacao
  {
    var suf := rotulo + ": " + observacao;
    assert suf[0] == rotulo[0];
    assert suf[|suf| - 1] == observacao[|observacao| - 1];
    assert pre + rotulo + ": " + observacao == pre + suf;
    TrimAppendWord(pre, suf, PySpace);
    ConcatAssoc(TrimStart(pre, PySpace), rotulo, ": ", observacao);
  }

  lemma AnotarObservacaoNoFim(atual: Option<string>, rotulo: string, observacao: string)
    requires rotulo != [] && !PySpace(rotulo[0])
    requires observacao != [] && !PySpace(observacao[|observacao| - 1])
    ensures AnotarObservacao(atual, rotulo, Some(observacao))
         == Some(TrimStart(atual.GetOr("") + "\n", PySpace) + rotulo + ": " + observacao)
  {
    assert AnotarObservacao(atual, rotulo, Some(observacao))
        == Some(PyStrip(atual.GetOr("") + "\n" + rotulo + ": " + observacao));
    StripAnotacao(atual.GetOr("") + "\n", rotulo, observacao);
  }

  /** Payment is confirmed exactly from "Aguardando pagamento", and then the
      order is paid by the given method. */
  lemma ConfirmarPagamentoEfeito(d: DadosPedido, forma: string)
    ensures d.ConfirmarPagamento(forma).Ok? <==> d.status == AguardandoPagamento
    ensures d.ConfirmarPagamento(forma).Ok? ==>
      var e := d.ConfirmarPagamento(forma).value;
      e.status == Pago && e.formaPagamento == Some(forma) && e.itens == d.itens
      && (d.Valid() ==> e.Valid())
  {
    assert StatusDeNome("Pago") == Some(Pago);
  }

  /** Cancelling succeeds exactly from the three early statuses, leaves the
      order cancelled with its items, and cannot happen twice. */
  lemma CancelarEfeito(d: DadosPedido, motivo: Option<string>, motivo2: Option<string>)
    ensures d.Cancelar(motivo).Ok? <==> d.PodeSerCancelado()
    ensures d.Cancelar(motivo).Ok? ==>
      var e := d.Cancelar(motivo).value;
      && e.status == Cancelado && e.itens == d.itens && e.EstaFinalizado()
      && (d.Valid() ==> e.Valid())
      && e.Cancelar(motivo2) == Err(CancelamentoNaoPermitido(Cancelado))
  {
    assert StatusDeNome("Cancelado") == Some(Cancelado);
  }

  /** A rating in 1..5 is accepted once, on a delivered order; a second one is refused. */
  lemma AdicionarAvaliacaoEfeito(d: DadosPedido, nota: int, comentario: Option<string>, agora: int,
                                 nota2: int, comentario2: Option<string>, agora2: int)
    ensures d.AdicionarAvaliacao(nota, comentario, agora).Ok?
        <==> d.status == Entregue && d.avaliacao.None? && 1 <= nota <= 5
    ensures !d.PodeSerAvaliado() ==> d.AdicionarAvaliacao(nota, comentario, agora) == Err(AvaliacaoNaoPermitida)
    ensures d.AdicionarAvaliacao(nota, comentario, agora).Ok? ==>
      var e := d.AdicionarAvaliacao(nota, comentario, agora).value;
      && e.avaliacao == Some(nota) && e.dataAvaliacao == Some(agora)
      && (d.Valid() ==> e.Valid())
      && e.AdicionarAvaliacao(nota2, comentario2, agora2) == Err(AvaliacaoNaoPermitida)
  {
  }

  // ---------------------------------------------------------------------------
  // The order object
  // ---------------------------------------------------------------------------

  class Pedido {
    var idUsuario: int
    var numeroPedido: Option<string>
    var subtotal: int
    var desconto: int
    var taxaEntrega: int
    var valorTotal: int
    var status: StatusPedido
    var formaPagamento: Option<string>
    var observacoes: Option<string>
    var avaliacao: Option<int>
    var comentarioAvaliacao: Option<string>
    var dataAvaliacao: Option<int>
    var itens: seq<ItemPedido>

    function Estado(): DadosPedido
      reads this
    {
      DadosPedido(idUsuario, numeroPedido, subtotal, desconto, taxaEntrega, valorTotal, status,
                  formaPagamento, observacoes, avaliacao, comentarioAvaliacao, dataAvaliacao, itens)
    }

    /** `Pedido(id_usuario=...)` with the column defaults. */
    constructor (idUsuario: int, numeroPedido: Option<string>)
      ensures Estado() == PedidoNovo(idUsuario, numeroPedido)
    {
      this.idUsuario := idUsuario;
      this.numeroPedido := numeroPedido;
      subtotal, desconto, taxaEntrega, valorTotal := 0, 0, 0, 0;
      status := AguardandoPagamento;
      formaPagamento, observacoes := None, None;
      avaliacao, comentarioAvaliacao, dataAvaliacao := None, None, None;
      itens := [];
    }

    method RecalcularValores()
      requires Estado().SubtotaisDefinidos()
      modifies this
      ensures Estado() == old(Estado()).RecalcularValores()
    {
      subtotal := Estado().CalcularSubtotal();
      valorTotal := Estado().CalcularTotal();
    }

    method AplicarDesconto(valor: int) returns (r: Outcome<ErroPedido>)
      requires Estado().SubtotaisDefinidos()
      modifies this
      ensures Efeito(r, old(Estado()), Estado(), old(Estado()).AplicarDesconto(valor))
    {
      if valor < 0 {
        return Fail(DescontoNegativo);
      }
      if valor > subtotal {
        return Fail(DescontoAcimaDoSubtotal);
      }
      desconto := valor;
      RecalcularValores();
      r := Pass;
    }

    method DefinirTaxaEntrega(taxa: int) returns (r: Outcome<ErroPedido>)
      requires Estado().SubtotaisDefinidos()
      modifies this
      ensures Efeito(r, old(Estado()), Estado(), old(Estado()).DefinirTaxaEntrega(taxa))
    {
      if taxa < 0 {
        return Fail(TaxaNegativa);
      }
      taxaEntrega := taxa;
      RecalcularValores();
      r := Pass;
    }

    method AdicionarItem(idProduto: int, produto: Produto, quantidade: int, preco: Option<int>,
                         obs: Option<string>, novoId: int) returns (r: Outcome<ErroPedido>)
      requires Estado().SubtotaisDefinidos()
      modifies this
      ensures Efeito(r, old(Estado()), Estado(),
                     old(Estado()).AdicionarItem(idProduto, produto, quantidade, preco, obs, novoId))
    {
      if quantidade <= 0 {
        return Fail(QuantidadeDeveSerPositiva);
      }
      if !produto.VerificarEstoque(quantidade) {
        return Fail(EstoqueInsuficientePara(produto.nome));
      }
      ghost var antes := Estado();
      var precoUnitario := preco.GetOr(produto.precoFinal);
      var k := PrimeiroCom(itens, IdProduto, idProduto);
      var novos;
      if k < |itens| {
        var existente := itens[k];
        novos := itens[k := existente.(quantidade := existente.quantidade + quantidade).CalcularSubtotal()];
      } else {
        var item := ItemPedido(novoId, idProduto, Some(produto.nome), quantidade, precoUnitario, None, obs);
        novos := itens + [item.CalcularSubtotal()];
      }
      assert novos == ItensComAdicao(antes.itens, idProduto, produto, quantidade, preco, obs, novoId);
      itens := novos;
      assert Estado() == antes.(itens := novos);
      RecalcularValores();
      r := Pass;
    }

    method RemoverItem(idItem: int) returns (r: Outcome<ErroPedido>)
      requires Estado().SubtotaisDefinidos()
      modifies this
      ensures Efeito(r, old(Estado()), Estado(), old(Estado()).RemoverItem(idItem))
    {
      var k := PrimeiroCom(itens, IdItem, idItem);
      if k == |itens| {
        return Fail(ItemNaoEncontrado);
      }
      itens := itens[..k] + itens[k + 1..];
      RecalcularValores();
      r := Pass;
    }

    method AtualizarStatus(rotulo: string, observacao: Option<string>) returns (r: Outcome<ErroPedido>)
      modifies this
      ensures Efeito(r, old(Estado()), Estado(), old(Estado()).AtualizarStatus(rotulo, observacao))
    {
      var novo := StatusDeNome(rotulo);
      if novo.None? {
        return Fail(StatusInvalido(rotulo));
      }
      status := novo.value;
      if observacao.Some? && observacao.value != [] {
        var atual := observacoes.GetOr("");
        observacoes := Some(PyStrip(atual + "\n" + rotulo + ": " + observacao.value));
      }
      r := Pass;
    }

    method ConfirmarPagamento(forma: string) returns (r: Outcome<ErroPedido>)
      modifies this
      ensures Efeito(r, old(Estado()), Estado(), old(Estado()).ConfirmarPagamento(forma))
    {
      if status != AguardandoPagamento {
        return Fail(PagamentoNaoPermitido(status));
      }
      formaPagamento := Some(forma);
      r := AtualizarStatus("Pago", Some("Pagamento confirmado"));
    }

    /** `cancelar`: the given product table gets every item's units back. The
        items' products are in the table, as the RESTRICT foreign key keeps
        them. */
    method Cancelar(motivo: Option<string>, estoque: Catalogo) returns (r: Outcome<ErroPedido>, novoEstoque: Catalogo)
      requires forall i :: 0 <= i < |itens| ==> itens[i].idProduto in estoque
      modifies this
      ensures Efeito(r, old(Estado()), Estado(), old(Estado()).Cancelar(motivo))
      ensures novoEstoque == if r.Pass? then DevolverEstoque(estoque, old(itens)) else estoque
    {
      if !Estado().PodeSerCancelado() {
        return Fail(CancelamentoNaoPermitido(status)), estoque;
      }
      novoEstoque := DevolverItens(estoque, itens);
      r := AtualizarStatus("Cancelado", Some(MotivoCancelamento(motivo)));
    }

    method AdicionarAvaliacao(nota: int, comentario: Option<string>, agora: int) returns (r: Outcome<ErroPedido>)
      modifies this
      ensures Efeito(r, old(Estado()), Estado(), old(Estado()).AdicionarAvaliacao(nota, comentario, agora))
    {
      if !(status == Entregue && avaliacao.None?) {
        return Fail(AvaliacaoNaoPermitida);
      }
      if nota < 1 || nota > 5 {
        return Fail(NotaForaDoIntervalo);
      }
      avaliacao := Some(nota);
      comentarioAvaliacao := comentario;
      dataAvaliacao := Some(agora);
      r := Pass;
    }
  }
}
