/** The delivery (models/entrega.py, class Entrega): a state machine over
    seven statuses whose methods assign the status, the courier and the
    timestamps after guard checks. As for the order, the object is a class and
    each method is specified by a function on a snapshot of its fields. Times
    are integer seconds passed in by the caller. */
module Entregas {
  import opened Base
  import opened Texto

  datatype StatusEntrega =
    | Aguardando | Atribuido | ACaminho | ProximoAoDestino | Entregue | NaoEntregue | Cancelado

  /** The label the `status_entrega_enum` column stores. */
  function NomeStatusEntrega(s: StatusEntrega): string
  {
    match s
    case Aguardando => "Aguardando"
    case Atribuido => "Atribuído"
    case ACaminho => "A caminho"
    case ProximoAoDestino => "Próximo ao destino"
    case Entregue => "Entregue"
    case NaoEntregue => "Não entregue"
    case Cancelado => "Cancelado"
  }

  datatype ErroEntrega =
    | NaoPodeIniciar(atual: StatusEntrega)        // "Não é possível iniciar entrega com status ..."
    | NaoPodeMarcarProximo(atual: StatusEntrega)  // "Não é possível marcar como próximo com status ..."
    | NaoPodeFinalizar(atual: StatusEntrega)      // "Não é possível finalizar entrega com status ..."
    | NaoPodeCancelar(atual: StatusEntrega)       // "Não é possível cancelar entrega com status ..."
    | NotaInvalida                                // "Avaliação deve estar entre 1 e 5"
    | EntregaNaoConcluida                         // "Só é possível avaliar entregas concluídas"

  datatype DadosEntrega = DadosEntrega(
    idPedido: int,
    idEntregador: Option<int>,
    status: StatusEntrega,
    dataAtribuicao: Option<int>,
    dataSaida: Option<int>,
    dataEntrega: Option<int>,
    observacoes: Option<string>,
    avaliacaoEntregador: Option<int>,
    comentarioEntregador: Option<string>)
  {
    /** `esta_em_andamento`. */
    predicate EstaEmAndamento() { status in {Atribuido, ACaminho, ProximoAoDestino} }

    /** `foi_concluida`. */
    predicate FoiConcluida() { status in {Entregue, NaoEntregue, Cancelado} }

    /** What the transitions keep: an assigned delivery has a courier and an
        assignment time, one on its way has left, a finished one has left and
        arrived, and a rating lies in 1..5. */
    predicate Valid()
    {
      && (status == Atribuido ==> idEntregador.Some? && dataAtribuicao.Some?)
      && (status in {ACaminho, ProximoAoDestino} ==> dataSaida.Some?)
      && (status in {Entregue, NaoEntregue} ==> dataSaida.Some? && dataEntrega.Some?)
      && (avaliacaoEntregador.Some? ==> 1 <= avaliacaoEntregador.value <= 5)
    }

    /** `atribuir_entregador`: no guard at all. */
    function AtribuirEntregador(idEntregador: int, agora: int): DadosEntrega
    {
      this.(idEntregador := Some(idEntregador), status := Atribuido, dataAtribuicao := Some(agora))
    }

    /** `iniciar_entrega`. */
    function IniciarEntrega(agora: int): Result<DadosEntrega, ErroEntrega>
    {
      if status !in {Atribuido, Aguardando} then Err(NaoPodeIniciar(status))
      else Ok(this.(status := ACaminho, dataSaida := Some(agora)))
    }

    /** `marcar_proximo_destino`. */
    function MarcarProximoDestino(): Result<DadosEntrega, ErroEntrega>
    {
      if status != ACaminho then Err(NaoPodeMarcarProximo(status))
      else Ok(this.(status := ProximoAoDestino))
    }

    /** `finalizar_entrega`; a non-empty note replaces the notes. */
    function FinalizarEntrega(sucesso: bool, observacao: Option<string>, agora: int): Result<DadosEntrega, ErroEntrega>
    {
      if status !in {ACaminho, ProximoAoDestino} then Err(NaoPodeFinalizar(status))
      else
        Ok(this.(status := if sucesso then Entregue else NaoEntregue,
                 dataEntrega := Some(agora),
                 observacoes := if observacao.Some? && observacao.value != [] then observacao else observacoes))
    }

    /** `cancelar_entrega`; a non-empty reason is appended to the notes on a new line. */
    function CancelarEntrega(motivo: Option<string>): Result<DadosEntrega, ErroEntrega>
    {
      if status in {Entregue, Cancelado} then Err(NaoPodeCancelar(status))
      else
        Ok(this.(status := Cancelado,
                 observacoes :=
                   if motivo.Some? && motivo.value != [] then
                     Some(PyStrip(observacoes.GetOr("") + "\nMotivo do cancelamento: " + motivo.value))
                   else observacoes))
    }

    /** `adicionar_avaliacao`: the grade is checked before the status. */
    function AdicionarAvaliacao(nota: int, comentario: Option<string>): Result<DadosEntrega, ErroEntrega>
    {
      if nota < 1 || nota > 5 then Err(NotaInvalida)
      else if status != Entregue then Err(EntregaNaoConcluida)
      else Ok(this.(avaliacaoEntregador := Some(nota), comentarioEntregador := comentario))
    }
  }

  /** A new delivery with the column defaults. */
  function EntregaNova(idPedido: int): (d: DadosEntrega)
    ensures d.Valid() && d.status == Aguardando && !d.EstaEmAndamento() && !d.FoiConcluida()
  {
    DadosEntrega(idPedido, None, Aguardando, None, None, None, None, None, None)
  }

  // ---------------------------------------------------------------------------
  // What the delivery promises
  // ---------------------------------------------------------------------------

  /** The status sets partition the statuses: in progress, concluded, or
      still waiting, and exactly one of them. */
  lemma SituacoesDaEntrega(d: DadosEntrega)
    ensures !(d.EstaEmAndamento() && d.FoiConcluida())
    ensures d.status == Aguardando <==> !d.EstaEmAndamento() && !d.FoiConcluida()
  {
  }

  /** Assigning a courier works from every status, even a concluded one. */
  lemma AtribuirEntregadorEfeito(d: DadosEntrega, idEntregador: int, agora: int)
    ensures
      var e := d.AtribuirEntregador(idEntregador, agora);
      && e.status == Atribuido && e.idEntregador == Some(idEntregador) && e.dataAtribuicao == Some(agora)
      && e.EstaEmAndamento()
      && (d.Valid() ==> e.Valid())
  {
  }

  /** Starting works exactly from "Atribuído" or "Aguardando". */
  lemma IniciarEntregaEfeito(d: DadosEntrega, agora: int)
    ensures d.IniciarEntrega(agora).Ok? <==> d.status == Atribuido || d.status == Aguardando
    ensures d.IniciarEntrega(agora).Err? ==> d.IniciarEntrega(agora) == Err(NaoPodeIniciar(d.status))
    ensures d.IniciarEntrega(agora).Ok? ==>
      var e := d.IniciarEntrega(agora).value;
      e.status == ACaminho && e.dataSaida == Some(agora) && (d.Valid() ==> e.Valid())
  {
  }

  /** "Próximo ao destino" is reachable only from "A caminho". */
  lemma MarcarProximoDestinoEfeito(d: DadosEntrega)
    ensures d.MarcarProximoDestino().Ok? <==> d.status == ACaminho
    ensures d.MarcarProximoDestino().Ok? ==>
      var e := d.MarcarProximoDestino().value;
      e.status == ProximoAoDestino && e == d.(status := ProximoAoDestino) && (d.Valid() ==> e.Valid())
  {
  }

  /** Finishing works exactly while on the way, and ends in "Entregue" or
      "Não entregue" as the attempt succeeded or not. */
  lemma FinalizarEntregaEfeito(d: DadosEntrega, sucesso: bool, observacao: Option<string>, agora: int)
    ensures d.FinalizarEntrega(sucesso, observacao, agora).Ok? <==> d.status == ACaminho || d.status == ProximoAoDestino
    ensures d.FinalizarEntrega(sucesso, observacao, agora).Ok? ==>
      var e := d.FinalizarEntrega(sucesso, observacao, agora).value;
      && (e.status == Entregue <==> sucesso) && e.FoiConcluida()
      && e.dataEntrega == Some(agora)
      && (d.Valid() ==> e.Valid())
  {
  }

  /** Cancelling fails only from "Entregue" or "Cancelado": a failed delivery
      ("Não entregue") can still be cancelled, and a cancelled one not again. */
  lemma CancelarEntregaEfeito(d: DadosEntrega, motivo: Option<string>, motivo2: Option<string>)
    ensures d.CancelarEntrega(motivo).Err? <==> d.status == Entregue || d.status == Cancelado
    ensures d.CancelarEntrega(motivo).Ok? ==>
      var e := d.CancelarEntrega(motivo).value;
      && e.status == Cancelado && e.FoiConcluida()
      && (d.Valid() ==> e.Valid())
      && e.CancelarEntrega(motivo2) == Err(NaoPodeCancelar(Cancelado))
  {
  }

  /** A courier rating needs a grade in 1..5, tested first, and a delivered
      order. */
  lemma AdicionarAvaliacaoEntregaEfeito(d: DadosEntrega, nota: int, comentario: Option<string>)
    ensures d.AdicionarAvaliacao(nota, comentario).Ok? <==> 1 <= nota <= 5 && d.status == Entregue
    ensures (nota < 1 || nota > 5) ==> d.AdicionarAvaliacao(nota, comentario) == Err(NotaInvalida)
    ensures d.AdicionarAvaliacao(nota, comentario).Ok? ==>
      var e := d.AdicionarAvaliacao(nota, comentario).value;
      e.avaliacaoEntregador == Some(nota) && e.status == d.status && (d.Valid() ==> e.Valid())
  {
  }

  /** Once concluded, a delivery can neither start, move on nor finish again. */
  lemma ConcluidaNaoAvanca(d: DadosEntrega, sucesso: bool, observacao: Option<string>, agora: int)
    requires d.FoiConcluida()
    ensures d.IniciarEntrega(agora).Err? && d.MarcarProximoDestino().Err?
    ensures d.FinalizarEntrega(sucesso, observacao, agora).Err?
  {
  }

  /** The delivery's normal course, each step allowed by the guards. */
  lemma PercursoNormal(idPedido: int, idEntregador: int, t1: int, t2: int, t3: int)
    ensures
      var e1 := EntregaNova(idPedido).AtribuirEntregador(idEntregador, t1);
      && e1.IniciarEntrega(t2).Ok?
      && e1.IniciarEntrega(t2).value.MarcarProximoDestino().Ok?
      && e1.IniciarEntrega(t2).value.MarcarProximoDestino().value.FinalizarEntrega(true, None, t3).Ok?
      && e1.IniciarEntrega(t2).value.MarcarProximoDestino().value.FinalizarEntrega(true, None, t3).value
           .AdicionarAvaliacao(5, None).Ok?
  {
  }

  // ---------------------------------------------------------------------------
  // The delivery object
  // ---------------------------------------------------------------------------

  class Entrega {
    var idPedido: int
    var idEntregador: Option<int>
    var status: StatusEntrega
    var dataAtribuicao: Option<int>
    var dataSaida: Option<int>
    var dataEntrega: Option<int>
    var observacoes: Option<string>
    var avaliacaoEntregador: Option<int>
    var comentarioEntregador: Option<string>

    function Estado(): DadosEntrega
      reads this
    {
      DadosEntrega(idPedido, idEntregador, status, dataAtribuicao, dataSaida, dataEntrega,
                   observacoes, avaliacaoEntregador, comentarioEntregador)
    }

    constructor (idPedido: int)
      ensures Estado() == EntregaNova(idPedido)
    {
      this.idPedido := idPedido;
      idEntregador := None;
      status := Aguardando;
      dataAtribuicao, dataSaida, dataEntrega := None, None, None;
      observacoes := None;
      avaliacaoEntregador, comentarioEntregador := None, None;
    }

    method AtribuirEntregador(id: int, agora: int)
      modifies this
      ensures Estado() == old(Estado()).AtribuirEntregador(id, agora)
    {
      idEntregador := Some(id);
      status := Atribuido;
      dataAtribuicao := Some(agora);
    }

    method IniciarEntrega(agora: int) returns (r: Outcome<ErroEntrega>)
      modifies this
      ensures Efeito(r, old(Estado()), Estado(), old(Estado()).IniciarEntrega(agora))
    {
      if status != Atribuido && status != Aguardando {
        return Fail(NaoPodeIniciar(status));
      }
      status := ACaminho;
      dataSaida := Some(agora);
      r := Pass;
    }

    method MarcarProximoDestino() returns (r: Outcome<ErroEntrega>)
      modifies this
      ensures Efeito(r, old(Estado()), Estado(), old(Estado()).MarcarProximoDestino())
    {
      if status != ACaminho {
        return Fail(NaoPodeMarcarProximo(status));
      }
      status := ProximoAoDestino;
      r := Pass;
    }

    method FinalizarEntrega(sucesso: bool, observacao: Option<string>, agora: int) returns (r: Outcome<ErroEntrega>)
      modifies this
      ensures Efeito(r, old(Estado()), Estado(), old(Estado()).FinalizarEntrega(sucesso, observacao, agora))
    {
      if status != ACaminho && status != ProximoAoDestino {
        return Fail(NaoPodeFinalizar(status));
      }
      status := if sucesso then Entregue else NaoEntregue;
      dataEntrega := Some(agora);
      if observacao.Some? && observacao.value != [] {
        observacoes := observacao;
      }
      r := Pass;
    }

    method CancelarEntrega(motivo: Option<string>) returns (r: Outcome<ErroEntrega>)
      modifies this
      ensures Efeito(r, old(Estado()), Estado(), old(Estado()).CancelarEntrega(motivo))
    {
      if status == Entregue || status == Cancelado {
        return Fail(NaoPodeCancelar(status));
      }
      status := Cancelado;
      if motivo.Some? && motivo.value != [] {
        var atual := observacoes.GetOr("");
        observacoes := Some(PyStrip(atual + "\nMotivo do cancelamento: " + motivo.value));
      }
      r := Pass;
    }

    method AdicionarAvaliacao(nota: int, comentario: Option<string>) returns (r: Outcome<ErroEntrega>)
      modifies this
      ensures Efeito(r, old(Estado()), Estado(), old(Estado()).AdicionarAvaliacao(nota, comentario))
    {
      if nota < 1 || nota > 5 {
        return Fail(NotaInvalida);
      }
      if status != Entregue {
        return Fail(EntregaNaoConcluida);
      }
      avaliacaoEntregador := Some(nota);
      comentarioEntregador := comentario;
      r := Pass;
    }
  }
}
