/** The client's shopping cart (myApp/src/app/services/carrinho.service.ts):
    a list of entries that the service's methods change in place, the sums
    shown to the user and the payload meant for the order endpoint. Prices
    are integer cents; the localStorage copy and the observable are left out,
    and the list loaded at start-up is the constructor's parameter. */
module Carrinho {
  import opened Base
  import opened Produtos
  import opened ItensPedido
  import opened Pedidos
  import opened PedidoController

  /** One cart entry (`ItemCarrinho`), without the description and image. */
  datatype ItemCarrinho = ItemCarrinho(idProduto: int, nome: string, preco: int, quantidade: int)

  /** The fields of the product object `adicionarItem` reads. */
  datatype ProdutoAnunciado = ProdutoAnunciado(idProduto: int, nome: string, preco: int)

  /** No two entries share a product id. */
  predicate IdsUnicos(s: seq<ItemCarrinho>)
  {
    forall i, j :: 0 <= i < j < |s| ==> s[i].idProduto != s[j].idProduto
  }

  /** `findIndex(item => item.id_produto === id)`: the first position, or -1. */
  function IndiceDe(s: seq<ItemCarrinho>, id: int): (k: int)
    ensures -1 <= k < |s|
    ensures k >= 0 ==> s[k].idProduto == id
  {
    if s == [] then -1
    else if s[0].idProduto == id then 0
    else
      var k := IndiceDe(s[1..], id);
      assert k >= 0 ==> s[k + 1] == s[1..][k];
      if k == -1 then -1 else k + 1
  }

  /** No entry before the position found, and none at all when it is -1, has the id. */
  lemma {:induction false} IndiceDePrimeiro(s: seq<ItemCarrinho>, id: int)
    ensures forall j :: 0 <= j < |s| && (IndiceDe(s, id) == -1 || j < IndiceDe(s, id)) ==> s[j].idProduto != id
  {
    if s != [] && s[0].idProduto != id {
      IndiceDePrimeiro(s[1..], id);
      assert forall j :: 1 <= j < |s| ==> s[j] == s[1..][j - 1];
    }
  }

  /** The first position is the only one with those two properties. */
  lemma IndiceDeCaracterizado(s: seq<ItemCarrinho>, id: int, k: int)
    requires 0 <= k <= |s|
    requires forall j :: 0 <= j < k ==> s[j].idProduto != id
    requires k == |s| || s[k].idProduto == id
    ensures IndiceDe(s, id) == if k == |s| then -1 else k
  {
    IndiceDePrimeiro(s, id);
  }

  // ---------------------------------------------------------------------------
  // The operations on the list
  // ---------------------------------------------------------------------------

  /** `adicionarItem`: more of an entry already there, or a new entry at the end. */
  function Adicionar(s: seq<ItemCarrinho>, p: ProdutoAnunciado, q: int): seq<ItemCarrinho>
  {
    var k := IndiceDe(s, p.idProduto);
    if k > -1 then s[k := s[k].(quantidade := s[k].quantidade + q)]
    else s + [ItemCarrinho(p.idProduto, p.nome, p.preco, q)]
  }

  /** `filter(item => item.id_produto !== id)`. */
  function SemProduto(s: seq<ItemCarrinho>, id: int): seq<ItemCarrinho>
  {
    if s == [] then []
    else
      var x := s[|s| - 1];
      SemProduto(s[..|s| - 1], id) + (if x.idProduto == id then [] else [x])
  }

  /** `removerItemPorIndex`: `splice(index, 1)` for an index in range, otherwise nothing. */
  function RemoverNaPosicao(s: seq<ItemCarrinho>, index: int): seq<ItemCarrinho>
  {
    if 0 <= index < |s| then s[..index] + s[index + 1..] else s
  }

  /** `atualizarQuantidade`. */
  function DefinirQuantidade(s: seq<ItemCarrinho>, id: int, q: int): seq<ItemCarrinho>
  {
    var k := IndiceDe(s, id);
    if k == -1 then s
    else if q <= 0 then s[..k] + s[k + 1..]
    else s[k := s[k].(quantidade := q)]
  }

  /** `aumentarQuantidade`. */
  function Aumentar(s: seq<ItemCarrinho>, id: int): seq<ItemCarrinho>
  {
    var k := IndiceDe(s, id);
    if k == -1 then s else s[k := s[k].(quantidade := s[k].quantidade + 1)]
  }

  /** `diminuirQuantidade`: one less while more than one is left, otherwise
      `removerItem`, which drops every entry with that id. */
  function Diminuir(s: seq<ItemCarrinho>, id: int): seq<ItemCarrinho>
  {
    var k := IndiceDe(s, id);
    if k == -1 then s
    else if s[k].quantidade > 1 then s[k := s[k].(quantidade := s[k].quantidade - 1)]
    else SemProduto(s, id)
  }

  // ---------------------------------------------------------------------------
  // Sums
  // ---------------------------------------------------------------------------

  /** What a sum counts per entry. */
  datatype Medida = Unidades | Valor | UnidadesDe(id: int) | ValorDe(id: int)

  function Medir(m: Medida, it: ItemCarrinho): int
  {
    match m
    case Unidades => it.quantidade
    case Valor => it.preco * it.quantidade
    case UnidadesDe(id) => if it.idProduto == id then it.quantidade else 0
    case ValorDe(id) => if it.idProduto == id then it.preco * it.quantidade else 0
  }

  /** The `reduce` of the getters, from the left. */
  function Somar(s: seq<ItemCarrinho>, m: Medida): int
  {
    if s == [] then 0 else Somar(s[..|s| - 1], m) + Medir(m, s[|s| - 1])
  }

  /** `getQuantidadeTotal`. */
  function QuantidadeTotal(s: seq<ItemCarrinho>): int { Somar(s, Unidades) }

  /** `getValorTotal`. */
  function ValorTotal(s: seq<ItemCarrinho>): int { Somar(s, Valor) }

  lemma {:induction false} SomarConcat(a: seq<ItemCarrinho>, b: seq<ItemCarrinho>, m: Medida)
    ensures Somar(a + b, m) == Somar(a, m) + Somar(b, m)
  {
    if b == [] {
      assert a + b == a;
    } else {
      assert (a + b)[..|a + b| - 1] == a + b[..|b| - 1];
      SomarConcat(a, b[..|b| - 1], m);
    }
  }

  lemma SomarUm(x: ItemCarrinho, m: Medida)
    ensures Somar([x], m) == Medir(m, x)
  {
    assert [x][..0] == [];
  }

  /** With every quantity at least 1, the unit count is at least the number
      of entries. */
  lemma {:induction false} QuantidadeTotalMinima(s: seq<ItemCarrinho>)
    requires forall k :: 0 <= k < |s| ==> s[k].quantidade >= 1
    ensures QuantidadeTotal(s) >= |s|
  {
    if s != [] {
      QuantidadeTotalMinima(s[..|s| - 1]);
    }
  }

  /** `isEmpty`: an empty cart has no units and costs nothing, and a cart of
      positive quantities is empty exactly when its unit count is 0. */
  lemma VazioSse(s: seq<ItemCarrinho>)
    ensures s == [] ==> QuantidadeTotal(s) == 0 && ValorTotal(s) == 0
    ensures (forall k :: 0 <= k < |s| ==> s[k].quantidade >= 1) ==> (s == [] <==> QuantidadeTotal(s) == 0)
  {
    if forall k :: 0 <= k < |s| ==> s[k].quantidade >= 1 {
      QuantidadeTotalMinima(s);
    }
  }

  lemma SomarRemover(s: seq<ItemCarrinho>, k: nat, m: Medida)
    requires k < |s|
    ensures Somar(s[..k] + s[k + 1..], m) == Somar(s, m) - Medir(m, s[k])
  {
    assert s == s[..k] + [s[k]] + s[k + 1..];
    SomarConcat(s[..k] + [s[k]], s[k + 1..], m);
    SomarConcat(s[..k], [s[k]], m);
    SomarConcat(s[..k], s[k + 1..], m);
    SomarUm(s[k], m);
  }

  lemma SomarSubstituir(s: seq<ItemCarrinho>, k: nat, x: ItemCarrinho, m: Medida)
    requires k < |s|
    ensures Somar(s[k := x], m) == Somar(s, m) - Medir(m, s[k]) + Medir(m, x)
  {
    assert s == s[..k] + [s[k]] + s[k + 1..];
    assert s[k := x] == s[..k] + [x] + s[k + 1..];
    SomarConcat(s[..k] + [s[k]], s[k + 1..], m);
    SomarConcat(s[..k], [s[k]], m);
    SomarConcat(s[..k] + [x], s[k + 1..], m);
    SomarConcat(s[..k], [x], m);
    SomarUm(s[k], m);
    SomarUm(x, m);
  }

  /** Entries of other products add nothing to a product's units. */
  lemma {:induction false} SomarAusente(s: seq<ItemCarrinho>, id: int)
    requires forall j :: 0 <= j < |s| ==> s[j].idProduto != id
    ensures Somar(s, UnidadesDe(id)) == 0 && Somar(s, ValorDe(id)) == 0
  {
    if s != [] {
      SomarAusente(s[..|s| - 1], id);
    }
  }

  // ---------------------------------------------------------------------------
  // Properties of the filter
  // ---------------------------------------------------------------------------

  /** The filter works entry by entry, so it keeps the survivors in order. */
  lemma {:induction false} SemProdutoConcat(a: seq<ItemCarrinho>, b: seq<ItemCarrinho>, id: int)
    ensures SemProduto(a + b, id) == SemProduto(a, id) + SemProduto(b, id)
  {
    if b == [] {
      assert a + b == a;
    } else {
      assert (a + b)[..|a + b| - 1] == a + b[..|b| - 1];
      SemProdutoConcat(a, b[..|b| - 1], id);
    }
  }

  /** A list without the product is left as it is. */
  lemma {:induction false} SemProdutoAusente(s: seq<ItemCarrinho>, id: int)
    requires forall j :: 0 <= j < |s| ==> s[j].idProduto != id
    ensures SemProduto(s, id) == s
  {
    if s != [] {
      SemProdutoAusente(s[..|s| - 1], id);
    }
  }

  /** Every surviving entry comes from the list and has another id. */
  lemma {:induction false} SemProdutoElementos(s: seq<ItemCarrinho>, id: int)
    ensures forall x :: x in SemProduto(s, id) ==> x in s && x.idProduto != id
  {
    if s != [] {
      SemProdutoElementos(s[..|s| - 1], id);
    }
  }

  /** The last step of the filter. */
  lemma SemProdutoUltimo(s: seq<ItemCarrinho>, id: int)
    requires s != []
    ensures SemProduto(s, id) == SemProduto(s[..|s| - 1], id) + (if s[|s| - 1].idProduto == id then [] else [s[|s| - 1]])
  {
  }

  /** The totals lose exactly the product's units and value. */
  lemma {:induction false} SemProdutoTotais(s: seq<ItemCarrinho>, id: int)
    ensures QuantidadeTotal(SemProduto(s, id)) == QuantidadeTotal(s) - Somar(s, UnidadesDe(id))
    ensures ValorTotal(SemProduto(s, id)) == ValorTotal(s) - Somar(s, ValorDe(id))
  {
    if s != [] {
      var pre, x := s[..|s| - 1], s[|s| - 1];
      SemProdutoTotais(pre, id);
      var fim := if x.idProduto == id then [] else [x];
      SemProdutoUltimo(s, id);
      SomarConcat(SemProduto(pre, id), fim, Unidades);
      SomarConcat(SemProduto(pre, id), fim, Valor);
      if fim != [] {
        SomarUm(x, Unidades);
        SomarUm(x, Valor);
      }
    }
  }

  /** Another product keeps its units. */
  lemma {:induction false} SemProdutoOutro(s: seq<ItemCarrinho>, id: int, outro: int)
    requires outro != id
    ensures Somar(SemProduto(s, id), UnidadesDe(outro)) == Somar(s, UnidadesDe(outro))
  {
    if s != [] {
      var pre, x := s[..|s| - 1], s[|s| - 1];
      SemProdutoOutro(pre, id, outro);
      var fim := if x.idProduto == id then [] else [x];
      SemProdutoUltimo(s, id);
      SomarConcat(SemProduto(pre, id), fim, UnidadesDe(outro));
      if fim != [] { SomarUm(x, UnidadesDe(outro)); }
    }
  }

  /** The filter keeps ids unique. */
  lemma {:induction false} SemProdutoUnicos(s: seq<ItemCarrinho>, id: int)
    requires IdsUnicos(s)
    ensures IdsUnicos(SemProduto(s, id))
  {
    if s != [] {
      var pre, x := s[..|s| - 1], s[|s| - 1];
      assert IdsUnicos(pre);
      SemProdutoUnicos(pre, id);
      SemProdutoElementos(pre, id);
      SemProdutoUltimo(s, id);
      var rp := SemProduto(pre, id);
      if x.idProduto != id {
        var r := rp + [x];
        forall i | 0 <= i < |rp| ensures rp[i].idProduto != x.idProduto {
          assert rp[i] in rp;
          var i' :| 0 <= i' < |pre| && pre[i'] == rp[i];
          assert s[i'] == pre[i'];
        }
        assert forall i, j :: 0 <= i < j < |r| ==> r[i] == rp[i] && (r[j] == x || r[j] == rp[j]);
      }
    }
  }

  /** `removerItem` drops every entry of the product and no other: the
      product's units and value become 0, every other product keeps its
      units, the totals go down by what the product held and the ids stay
      unique (the survivors keep their order: `SemProdutoConcat`). */
  lemma SemProdutoEfeito(s: seq<ItemCarrinho>, id: int)
    ensures forall x :: x in SemProduto(s, id) ==> x.idProduto != id
    ensures Somar(SemProduto(s, id), UnidadesDe(id)) == 0
    ensures forall outro :: outro != id ==> Somar(SemProduto(s, id), UnidadesDe(outro)) == Somar(s, UnidadesDe(outro))
    ensures QuantidadeTotal(SemProduto(s, id)) == QuantidadeTotal(s) - Somar(s, UnidadesDe(id))
    ensures ValorTotal(SemProduto(s, id)) == ValorTotal(s) - Somar(s, ValorDe(id))
    ensures IdsUnicos(s) ==> IdsUnicos(SemProduto(s, id))
  {
    SemProdutoElementos(s, id);
    var r := SemProduto(s, id);
    assert forall j :: 0 <= j < |r| ==> r[j].idProduto != id by {
      forall j | 0 <= j < |r| ensures r[j].idProduto != id { assert r[j] in r; }
    }
    SomarAusente(r, id);
    SemProdutoTotais(s, id);
    forall outro | outro != id ensures Somar(r, UnidadesDe(outro)) == Somar(s, UnidadesDe(outro)) {
      SemProdutoOutro(s, id, outro);
    }
    if IdsUnicos(s) {
      SemProdutoUnicos(s, id);
    }
  }

  /** With unique ids, dropping the product is removing its one position. */
  lemma SemProdutoUnico(s: seq<ItemCarrinho>, id: int)
    requires IdsUnicos(s) && IndiceDe(s, id) >= 0
    ensures SemProduto(s, id) == RemoverNaPosicao(s, IndiceDe(s, id))
  {
    var k := IndiceDe(s, id);
    IndiceDePrimeiro(s, id);
    assert s == s[..k] + [s[k]] + s[k + 1..];
    SemProdutoMeio(s[..k], s[k], s[k + 1..], id);
  }

  /** The filter of one entry of the product between two lists without it. */
  lemma SemProdutoMeio(a: seq<ItemCarrinho>, x: ItemCarrinho, b: seq<ItemCarrinho>, id: int)
    requires forall j :: 0 <= j < |a| ==> a[j].idProduto != id
    requires forall j :: 0 <= j < |b| ==> b[j].idProduto != id
    requires x.idProduto == id
    ensures SemProduto(a + [x] + b, id) == a + b
  {
    SemProdutoAusente(a, id);
    SemProdutoAusente(b, id);
    assert [x][..0] == [];
    SemProdutoConcat(a + [x], b, id);
    SemProdutoConcat(a, [x], id);
  }

  // ---------------------------------------------------------------------------
  // What each operation promises
  // ---------------------------------------------------------------------------

  /** Replacing an entry by one with the same product keeps the ids unique. */
  lemma SubstituirUnicos(s: seq<ItemCarrinho>, k: nat, x: ItemCarrinho)
    requires k < |s| && x.idProduto == s[k].idProduto
    ensures IdsUnicos(s) ==> IdsUnicos(s[k := x])
  {
  }

  /** Removing a position keeps the ids unique. */
  lemma RemoverUnicos(s: seq<ItemCarrinho>, k: nat)
    requires k < |s|
    ensures IdsUnicos(s) ==> IdsUnicos(s[..k] + s[k + 1..])
  {
    var r := s[..k] + s[k + 1..];
    assert forall j :: 0 <= j < |r| ==> r[j] == if j < k then s[j] else s[j + 1];
  }

  lemma Distribuir(a: int, b: int, c: int)
    ensures a * (b + c) == a * b + c * a
  {
  }

  /** A product already in the cart: only its first entry changes. */
  lemma AdicionarPresente(s: seq<ItemCarrinho>, p: ProdutoAnunciado, q: int)
    requires IndiceDe(s, p.idProduto) >= 0
    ensures
      var r := Adicionar(s, p, q);
      var k := IndiceDe(s, p.idProduto);
      && |r| == |s| && r[k] == s[k].(quantidade := s[k].quantidade + q)
      && (forall j :: 0 <= j < |s| && j != k ==> r[j] == s[j])
      && Somar(r, UnidadesDe(p.idProduto)) == Somar(s, UnidadesDe(p.idProduto)) + q
      && (forall outro :: outro != p.idProduto ==> Somar(r, UnidadesDe(outro)) == Somar(s, UnidadesDe(outro)))
      && QuantidadeTotal(r) == QuantidadeTotal(s) + q
      && ValorTotal(r) == ValorTotal(s) + q * s[k].preco
  {
    var k := IndiceDe(s, p.idProduto);
    var x := s[k].(quantidade := s[k].quantidade + q);
    assert Adicionar(s, p, q) == s[k := x];
    Distribuir(s[k].preco, s[k].quantidade, q);
    SomarSubstituir(s, k, x, UnidadesDe(p.idProduto));
    SomarSubstituir(s, k, x, Unidades);
    SomarSubstituir(s, k, x, Valor);
    forall outro | outro != p.idProduto ensures Somar(s[k := x], UnidadesDe(outro)) == Somar(s, UnidadesDe(outro)) {
      SomarSubstituir(s, k, x, UnidadesDe(outro));
    }
  }

  /** Adding keeps the ids unique. */
  lemma AdicionarUnicos(s: seq<ItemCarrinho>, p: ProdutoAnunciado, q: int)
    requires IdsUnicos(s)
    ensures IdsUnicos(Adicionar(s, p, q))
  {
    var k := IndiceDe(s, p.idProduto);
    if k >= 0 {
      SubstituirUnicos(s, k, s[k].(quantidade := s[k].quantidade + q));
    } else {
      IndiceDePrimeiro(s, p.idProduto);
    }
  }

  /** A product not in the cart: one more entry at the end. */
  lemma AdicionarNovo(s: seq<ItemCarrinho>, p: ProdutoAnunciado, q: int)
    requires IndiceDe(s, p.idProduto) == -1
    ensures
      var r := Adicionar(s, p, q);
      && r == s + [ItemCarrinho(p.idProduto, p.nome, p.preco, q)]
      && Somar(r, UnidadesDe(p.idProduto)) == Somar(s, UnidadesDe(p.idProduto)) + q
      && (forall outro :: outro != p.idProduto ==> Somar(r, UnidadesDe(outro)) == Somar(s, UnidadesDe(outro)))
      && QuantidadeTotal(r) == QuantidadeTotal(s) + q
      && ValorTotal(r) == ValorTotal(s) + q * p.preco
  {
    var x := ItemCarrinho(p.idProduto, p.nome, p.preco, q);
    IndiceDePrimeiro(s, p.idProduto);
    SomarConcat(s, [x], UnidadesDe(p.idProduto));
    SomarConcat(s, [x], Unidades);
    SomarConcat(s, [x], Valor);
    SomarUm(x, UnidadesDe(p.idProduto));
    SomarUm(x, Unidades);
    SomarUm(x, Valor);
    forall outro | outro != p.idProduto ensures Somar(s + [x], UnidadesDe(outro)) == Somar(s, UnidadesDe(outro)) {
      SomarConcat(s, [x], UnidadesDe(outro));
      SomarUm(x, UnidadesDe(outro));
    }
  }

  /** Adding a product already in the cart only raises that entry's quantity
      by `q`, keeping the price it was added at; a new product is one more
      entry at the end. Either way the product's units and the total units
      grow by `q`, no other product changes and ids stay unique. */
  lemma AdicionarEfeito(s: seq<ItemCarrinho>, p: ProdutoAnunciado, q: int)
    ensures
      var r := Adicionar(s, p, q);
      var k := IndiceDe(s, p.idProduto);
      && (k >= 0 ==> |r| == |s| && r[k] == s[k].(quantidade := s[k].quantidade + q)
                     && forall j :: 0 <= j < |s| && j != k ==> r[j] == s[j])
      && (k == -1 ==> r == s + [ItemCarrinho(p.idProduto, p.nome, p.preco, q)])
      && Somar(r, UnidadesDe(p.idProduto)) == Somar(s, UnidadesDe(p.idProduto)) + q
      && (forall outro :: outro != p.idProduto ==> Somar(r, UnidadesDe(outro)) == Somar(s, UnidadesDe(outro)))
      && QuantidadeTotal(r) == QuantidadeTotal(s) + q
      && ValorTotal(r) == ValorTotal(s) + q * (if k >= 0 then s[k].preco else p.preco)
      && (IdsUnicos(s) ==> IdsUnicos(r))
  {
    if IndiceDe(s, p.idProduto) >= 0 {
      AdicionarPresente(s, p, q);
    } else {
      AdicionarNovo(s, p, q);
    }
    if IdsUnicos(s) {
      AdicionarUnicos(s, p, q);
    }
  }

  /** Out of range nothing changes; otherwise exactly that entry goes, the
      others keep their order, the totals drop by its share and ids stay unique. */
  lemma RemoverNaPosicaoEfeito(s: seq<ItemCarrinho>, index: int)
    ensures !(0 <= index < |s|) ==> RemoverNaPosicao(s, index) == s
    ensures 0 <= index < |s| ==>
      var r := RemoverNaPosicao(s, index);
      && |r| == |s| - 1 && r[..index] == s[..index] && r[index..] == s[index + 1..]
      && QuantidadeTotal(r) == QuantidadeTotal(s) - s[index].quantidade
      && ValorTotal(r) == ValorTotal(s) - s[index].preco * s[index].quantidade
    ensures IdsUnicos(s) ==> IdsUnicos(RemoverNaPosicao(s, index))
  {
    if 0 <= index < |s| {
      SomarRemover(s, index, Unidades);
      SomarRemover(s, index, Valor);
      RemoverUnicos(s, index);
      var r := RemoverNaPosicao(s, index);
      assert r[..index] == s[..index];
      assert r[index..] == s[index + 1..];
    }
  }

  /** With unique ids, a product in the cart has exactly its entry's units,
      and removing that entry leaves none of them. */
  lemma UnidadesDoUnico(s: seq<ItemCarrinho>, id: int)
    requires IdsUnicos(s) && IndiceDe(s, id) >= 0
    ensures var k := IndiceDe(s, id);
      && Somar(s, UnidadesDe(id)) == s[k].quantidade
      && Somar(s[..k] + s[k + 1..], UnidadesDe(id)) == 0
  {
    var k := IndiceDe(s, id);
    SemProdutoUnico(s, id);
    SemProdutoEfeito(s, id);
    SomarRemover(s, k, UnidadesDe(id));
  }

  /** A quantity of 0 or less removes the product's entry. */
  lemma DefinirQuantidadeZero(s: seq<ItemCarrinho>, id: int, q: int)
    requires IndiceDe(s, id) >= 0 && q <= 0
    ensures var k := IndiceDe(s, id);
      var r := DefinirQuantidade(s, id, q);
      && r == s[..k] + s[k + 1..]
      && QuantidadeTotal(r) == QuantidadeTotal(s) - s[k].quantidade
      && (IdsUnicos(s) ==> IdsUnicos(r) && Somar(r, UnidadesDe(id)) == 0)
  {
    var k := IndiceDe(s, id);
    SomarRemover(s, k, Unidades);
    RemoverUnicos(s, k);
    if IdsUnicos(s) {
      UnidadesDoUnico(s, id);
    }
  }

  /** A positive quantity replaces the entry's quantity. */
  lemma DefinirQuantidadePositiva(s: seq<ItemCarrinho>, id: int, q: int)
    requires IndiceDe(s, id) >= 0 && q > 0
    ensures var k := IndiceDe(s, id);
      var r := DefinirQuantidade(s, id, q);
      && QuantidadeTotal(r) == QuantidadeTotal(s) - s[k].quantidade + q
      && (IdsUnicos(s) ==> IdsUnicos(r) && Somar(r, UnidadesDe(id)) == q)
  {
    var k := IndiceDe(s, id);
    var x := s[k].(quantidade := q);
    assert DefinirQuantidade(s, id, q) == s[k := x];
    SomarSubstituir(s, k, x, Unidades);
    SubstituirUnicos(s, k, x);
    if IdsUnicos(s) {
      SomarSubstituir(s, k, x, UnidadesDe(id));
      UnidadesDoUnico(s, id);
    }
  }

  /** An absent id changes nothing; a quantity of 0 or less removes the first
      entry of the product, which with unique ids leaves none of it; any other
      quantity becomes the product's quantity. */
  lemma DefinirQuantidadeEfeito(s: seq<ItemCarrinho>, id: int, q: int)
    ensures IndiceDe(s, id) == -1 ==> DefinirQuantidade(s, id, q) == s
    ensures IndiceDe(s, id) >= 0 && q <= 0 ==>
      DefinirQuantidade(s, id, q) == RemoverNaPosicao(s, IndiceDe(s, id))
    ensures IdsUnicos(s) && IndiceDe(s, id) >= 0 ==>
      Somar(DefinirQuantidade(s, id, q), UnidadesDe(id)) == (if q <= 0 then 0 else q)
    ensures IndiceDe(s, id) >= 0 ==>
      QuantidadeTotal(DefinirQuantidade(s, id, q)) ==
        QuantidadeTotal(s) - s[IndiceDe(s, id)].quantidade + (if q <= 0 then 0 else q)
    ensures IdsUnicos(s) ==> IdsUnicos(DefinirQuantidade(s, id, q))
  {
    if IndiceDe(s, id) >= 0 {
      if q <= 0 {
        DefinirQuantidadeZero(s, id, q);
      } else {
        DefinirQuantidadePositiva(s, id, q);
      }
    }
  }

  /** On a product in the cart, `aumentarQuantidade` is `adicionarItem` of one
      unit; on any other id it does nothing. */
  lemma AumentarEfeito(s: seq<ItemCarrinho>, p: ProdutoAnunciado)
    ensures IndiceDe(s, p.idProduto) >= 0 ==> Aumentar(s, p.idProduto) == Adicionar(s, p, 1)
    ensures IndiceDe(s, p.idProduto) == -1 ==> Aumentar(s, p.idProduto) == s
  {
  }

  /** `diminuirQuantidade` with more than one unit takes one away; with one
      (or fewer) it removes the product, which with unique ids is its single
      entry; on an absent id it does nothing. */
  lemma DiminuirEfeito(s: seq<ItemCarrinho>, id: int)
    ensures IndiceDe(s, id) == -1 ==> Diminuir(s, id) == s
    ensures IndiceDe(s, id) >= 0 && s[IndiceDe(s, id)].quantidade > 1 ==>
      QuantidadeTotal(Diminuir(s, id)) == QuantidadeTotal(s) - 1
    ensures IndiceDe(s, id) >= 0 && s[IndiceDe(s, id)].quantidade <= 1 ==>
      forall x :: x in Diminuir(s, id) ==> x.idProduto != id
    ensures IdsUnicos(s) && IndiceDe(s, id) >= 0 && s[IndiceDe(s, id)].quantidade <= 1 ==>
      Diminuir(s, id) == RemoverNaPosicao(s, IndiceDe(s, id))
    ensures IdsUnicos(s) ==> IdsUnicos(Diminuir(s, id))
  {
    var k := IndiceDe(s, id);
    if k >= 0 {
      if s[k].quantidade > 1 {
        var x := s[k].(quantidade := s[k].quantidade - 1);
        SomarSubstituir(s, k, x, Unidades);
        SubstituirUnicos(s, k, x);
      } else {
        SemProdutoEfeito(s, id);
        if IdsUnicos(s) {
          SemProdutoUnico(s, id);
        }
      }
    }
  }

  /** The position of a product survives changing that entry's quantity. */
  lemma IndiceDeSubstituir(s: seq<ItemCarrinho>, id: int, x: ItemCarrinho)
    requires IndiceDe(s, id) >= 0 && x.idProduto == id
    ensures IndiceDe(s[IndiceDe(s, id) := x], id) == IndiceDe(s, id)
  {
    var k := IndiceDe(s, id);
    IndiceDePrimeiro(s, id);
    IndiceDeCaracterizado(s[k := x], id, k);
  }

  lemma AumentarNaPosicao(s: seq<ItemCarrinho>, id: int, k: int)
    requires k == IndiceDe(s, id) && k >= 0
    ensures Aumentar(s, id) == s[k := s[k].(quantidade := s[k].quantidade + 1)]
  {
  }

  lemma DiminuirNaPosicao(s: seq<ItemCarrinho>, id: int, k: int)
    requires k == IndiceDe(s, id) && k >= 0 && s[k].quantidade > 1
    ensures Diminuir(s, id) == s[k := s[k].(quantidade := s[k].quantidade - 1)]
  {
  }

  /** One more then one less gives back the cart. */
  lemma DiminuirAumentar(s: seq<ItemCarrinho>, id: int)
    requires IndiceDe(s, id) >= 0 && s[IndiceDe(s, id)].quantidade >= 1
    ensures Diminuir(Aumentar(s, id), id) == s
  {
    var k := IndiceDe(s, id);
    var x := s[k].(quantidade := s[k].quantidade + 1);
    var t := s[k := x];
    AumentarNaPosicao(s, id, k);
    IndiceDeSubstituir(s, id, x);
    DiminuirNaPosicao(t, id, k);
    assert t[k].(quantidade := t[k].quantidade - 1) == s[k];
    SubstituirDeVolta(s, k, x);
  }

  lemma SubstituirDeVolta<T>(s: seq<T>, k: nat, x: T)
    requires k < |s|
    ensures s[k := x][k := s[k]] == s
  {
  }

  /** Adding one unit of a new product and then taking one away gives back the cart. */
  lemma DiminuirAdicionarNovo(s: seq<ItemCarrinho>, p: ProdutoAnunciado)
    requires IndiceDe(s, p.idProduto) == -1
    ensures Diminuir(Adicionar(s, p, 1), p.idProduto) == s
  {
    var x := ItemCarrinho(p.idProduto, p.nome, p.preco, 1);
    var t := s + [x];
    IndiceDePrimeiro(s, p.idProduto);
    IndiceDeCaracterizado(t, p.idProduto, |s|);
    SemProdutoConcat(s, [x], p.idProduto);
    assert [x][..0] == [];
    SemProdutoAusente(s, p.idProduto);
  }

  // ---------------------------------------------------------------------------
  // The order payload
  // ---------------------------------------------------------------------------

  /** `getPedidoPayload`: the (id, quantity) pairs and `valor_total`. */
  datatype PayloadCarrinho = PayloadCarrinho(itens: seq<LinhaPedido>, valorTotal: int)

  /** The `map` of `getPedidoPayload`. */
  function LinhasDoCarrinho(s: seq<ItemCarrinho>): (r: seq<LinhaPedido>)
    ensures |r| == |s|
    ensures forall k :: 0 <= k < |s| ==> r[k] == LinhaPedido(Some(s[k].idProduto), Some(s[k].quantidade))
  {
    if s == [] then []
    else LinhasDoCarrinho(s[..|s| - 1]) + [LinhaPedido(Some(s[|s| - 1].idProduto), Some(s[|s| - 1].quantidade))]
  }

  function GetPedidoPayload(s: seq<ItemCarrinho>): PayloadCarrinho
  {
    PayloadCarrinho(LinhasDoCarrinho(s), ValorTotal(s))
  }

  /** Every product is asked for exactly the units the cart holds of it. */
  lemma {:induction false} SomaPedidaDoCarrinho(s: seq<ItemCarrinho>, p: int)
    ensures SomaPedida(LinhasDoCarrinho(s), p) == Somar(s, UnidadesDe(p))
  {
    if s != [] {
      var l := LinhasDoCarrinho(s);
      assert l[..|l| - 1] == LinhasDoCarrinho(s[..|s| - 1]);
      SomaPedidaDoCarrinho(s[..|s| - 1], p);
    }
  }

  /** The payload has no `id_usuario`, and `criar_pedido` refuses it as it is. */
  lemma PayloadSemUsuarioRecusado(s: seq<ItemCarrinho>, usuarios: set<int>, estoque: Catalogo, primeiroId: int)
    ensures CriarPedidoSpec(usuarios, estoque, PayloadPedido(None, GetPedidoPayload(s).itens), primeiroId)
            == Err(DadosObrigatorios)
  {
  }

  /** With non-negative quantities, the cart's lines can be placed exactly
      when every product is in the table with at least the units the cart
      holds of it. */
  lemma PedidoDoCarrinhoSse(s: seq<ItemCarrinho>, estoque: Catalogo, primeiroId: int)
    requires forall k :: 0 <= k < |s| ==> s[k].quantidade >= 0
    ensures Reservar(estoque, LinhasDoCarrinho(s), primeiroId).Ok? <==>
      forall k :: 0 <= k < |s| ==>
        s[k].idProduto in estoque && Somar(s, UnidadesDe(s[k].idProduto)) <= estoque[s[k].idProduto].estoque
  {
    var l := LinhasDoCarrinho(s);
    ReservarSucessoSse(estoque, l, primeiroId);
    forall k | 0 <= k < |s| ensures SomaPedida(l, s[k].idProduto) == Somar(s, UnidadesDe(s[k].idProduto)) {
      SomaPedidaDoCarrinho(s, s[k].idProduto);
    }
  }

  /** Values that agree entry by entry sum to the same total. */
  lemma {:induction false} SomaValorPontual(itens: seq<ItemPedido>, s: seq<ItemCarrinho>)
    requires |itens| == |s|
    requires forall k :: 0 <= k < |s| ==> ValorItem(itens[k]) == Medir(Valor, s[k])
    ensures Soma(itens, ValorItem) == ValorTotal(s)
  {
    if s != [] {
      SomaValorPontual(itens[..|itens| - 1], s[..|s| - 1]);
    }
  }

  /** Sent with a user id, the cart becomes an order worth the cart's
      `valor_total` when every entry's price is the product's current `preco`. */
  lemma PedidoDoCarrinhoValor(s: seq<ItemCarrinho>, usuarios: set<int>, estoque: Catalogo, usuario: int, primeiroId: int)
    requires CriarPedidoSpec(usuarios, estoque, PedidoComUsuario(s, usuario), primeiroId).Ok?
    requires forall k :: 0 <= k < |s| && s[k].idProduto in estoque ==> estoque[s[k].idProduto].preco == s[k].preco
    ensures CriarPedidoSpec(usuarios, estoque, PedidoComUsuario(s, usuario), primeiroId).value.0.valorTotal
            == GetPedidoPayload(s).valorTotal
  {
    CriarPedidoTotal(usuarios, estoque, PedidoComUsuario(s, usuario), primeiroId);
    ReservaDoCarrinhoValor(s, estoque, primeiroId);
  }

  /** The request the order endpoint needs from the cart: its lines under the
      logged-in user's id, which `getPedidoPayload` does not send. */
  function PedidoComUsuario(s: seq<ItemCarrinho>, usuario: int): PayloadPedido
  {
    PayloadPedido(Some(usuario), GetPedidoPayload(s).itens)
  }

  /** With the user's id added, the cart is placed exactly when the user is a
      known non-zero id, the cart is not empty and every product has the
      cart's units in stock. */
  lemma PedidoComUsuarioSse(s: seq<ItemCarrinho>, usuarios: set<int>, estoque: Catalogo, usuario: int, primeiroId: int)
    requires forall k :: 0 <= k < |s| ==> s[k].quantidade >= 0
    ensures CriarPedidoSpec(usuarios, estoque, PedidoComUsuario(s, usuario), primeiroId).Ok? <==>
      && usuario != 0 && usuario in usuarios && s != []
      && forall k :: 0 <= k < |s| ==>
           s[k].idProduto in estoque && Somar(s, UnidadesDe(s[k].idProduto)) <= estoque[s[k].idProduto].estoque
  {
    PedidoDoCarrinhoSse(s, estoque, primeiroId);
  }

  /** The reservation of the cart's lines totals the cart's value. */
  lemma ReservaDoCarrinhoValor(s: seq<ItemCarrinho>, estoque: Catalogo, primeiroId: int)
    requires Reservar(estoque, LinhasDoCarrinho(s), primeiroId).Ok?
    requires forall k :: 0 <= k < |s| && s[k].idProduto in estoque ==> estoque[s[k].idProduto].preco == s[k].preco
    ensures Reservar(estoque, LinhasDoCarrinho(s), primeiroId).value.total == ValorTotal(s)
  {
    var l := LinhasDoCarrinho(s);
    ReservarItens(estoque, l, primeiroId);
    var r := Reservar(estoque, l, primeiroId).value;
    forall k | 0 <= k < |s| ensures ValorItem(r.itens[k]) == Medir(Valor, s[k]) {
      assert l[k] == LinhaPedido(Some(s[k].idProduto), Some(s[k].quantidade));
    }
    SomaValorPontual(r.itens, s);
  }

  // ---------------------------------------------------------------------------
  // The service
  // ---------------------------------------------------------------------------

  /** `findIndex` as a loop. */
  method EncontrarIndice(s: seq<ItemCarrinho>, id: int) returns (k: int)
    ensures k == IndiceDe(s, id)
  {
    k := 0;
    while k < |s| && s[k].idProduto != id
      invariant 0 <= k <= |s|
      invariant forall j :: 0 <= j < k ==> s[j].idProduto != id
    {
      k := k + 1;
    }
    IndiceDeCaracterizado(s, id, k);
    if k == |s| {
      k := -1;
    }
  }

  class CarrinhoService {
    /** The subject's current array, which the methods change in place. */
    var itens: seq<ItemCarrinho>

    /** The service starts from the list `carregarItens` read from storage. */
    constructor (salvos: seq<ItemCarrinho>)
      ensures itens == salvos
    {
      itens := salvos;
    }

    method AdicionarItem(produto: ProdutoAnunciado, quantidade: int)
      modifies this
      ensures itens == Adicionar(old(itens), produto, quantidade)
    {
      var index := EncontrarIndice(itens, produto.idProduto);
      if index > -1 {
        itens := itens[index := itens[index].(quantidade := itens[index].quantidade + quantidade)];
      } else {
        itens := itens + [ItemCarrinho(produto.idProduto, produto.nome, produto.preco, quantidade)];
      }
    }

    /** `filter` as a loop that keeps the entries of other products. */
    method RemoverItem(idProduto: int)
      modifies this
      ensures itens == SemProduto(old(itens), idProduto)
    {
      var restantes: seq<ItemCarrinho> := [];
      var i := 0;
      while i < |itens|
        invariant 0 <= i <= |itens|
        invariant restantes == SemProduto(itens[..i], idProduto)
      {
        assert itens[..i + 1][..i] == itens[..i];
        if itens[i].idProduto != idProduto {
          restantes := restantes + [itens[i]];
        }
        i := i + 1;
      }
      assert itens[..|itens|] == itens;
      itens := restantes;
    }

    method RemoverItemPorIndex(index: int)
      modifies this
      ensures itens == RemoverNaPosicao(old(itens), index)
    {
      if index >= 0 && index < |itens| {
        itens := itens[..index] + itens[index + 1..];
      }
    }

    method AtualizarQuantidade(idProduto: int, quantidade: int)
      modifies this
      ensures itens == DefinirQuantidade(old(itens), idProduto, quantidade)
    {
      var index := EncontrarIndice(itens, idProduto);
      if index > -1 {
        if quantidade <= 0 {
          itens := itens[..index] + itens[index + 1..];
        } else {
          itens := itens[index := itens[index].(quantidade := quantidade)];
        }
      }
    }

    method AumentarQuantidade(idProduto: int)
      modifies this
      ensures itens == Aumentar(old(itens), idProduto)
    {
      var index := EncontrarIndice(itens, idProduto);
      if index > -1 {
        itens := itens[index := itens[index].(quantidade := itens[index].quantidade + 1)];
      }
    }

    method DiminuirQuantidade(idProduto: int)
      modifies this
      ensures itens == Diminuir(old(itens), idProduto)
    {
      var index := EncontrarIndice(itens, idProduto);
      if index > -1 {
        if itens[index].quantidade > 1 {
          itens := itens[index := itens[index].(quantidade := itens[index].quantidade - 1)];
        } else {
          RemoverItem(idProduto);
        }
      }
    }

    /** `isEmpty`. */
    predicate IsEmpty()
      reads this
    {
      itens == []
    }

    /** Afterwards the cart is empty and both sums are 0. */
    method LimparCarrinho()
      modifies this
      ensures itens == [] && QuantidadeTotal(itens) == 0 && ValorTotal(itens) == 0
    {
      itens := [];
    }
  }
}
