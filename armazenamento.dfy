/**
 * The persisted document of api/comentario.js and the two storage helpers
 * around it: `lerDados` (which source the document comes from) and
 * `salvarDados` (stamp the time, then report whether the write succeeded).
 * The file system is not modelled: each source is an optional document
 * (absent or unparseable is `None`) and a write is a success flag.
 */
module Armazenamento {
  import opened Opcoes
  import Perigo

  /** An attachment; only the length of its `dados` payload is ever inspected. */
  datatype Arquivo = Arquivo(dados: Option<string>)

  datatype Comentario = Comentario(
    id: int,
    texto: string,
    autor: string,
    anonimo: bool,
    tipoAvaliacao: string,
    dataHora: string,
    timestamp: int,
    arquivo: Option<Arquivo>)

  datatype Limites = Limites(baixo: int, medio: int, alto: int, critico: int)

  datatype NivelPerigo = NivelPerigo(valor: int, classificacao: string, limites: Limites)

  datatype Configuracoes = Configuracoes(
    pontuacaoAtual: int,
    alertaVisualAtivo: bool,
    nivelPerigo: NivelPerigo,
    pontosPorAvaliacao: int,
    senhaExclusao: string)

  datatype Avaliacoes = Avaliacoes(
    totalComentarios: int,
    totalLikes: int,
    totalDeslikes: int,
    comentarios: seq<Comentario>)

  datatype Documento = Documento(
    versao: string,
    dataUltimaAtualizacao: string,
    configuracoes: Configuracoes,
    avaliacoes: Avaliacoes)

  /**
   * The cached fields agree with what they cache: both counters equal the
   * number of comments, the danger value mirrors the score and the label is
   * the classification of the score.
   */
  ghost predicate Consistente(d: Documento) {
    && d.avaliacoes.totalComentarios == |d.avaliacoes.comentarios|
    && d.avaliacoes.totalDeslikes == |d.avaliacoes.comentarios|
    && d.configuracoes.nivelPerigo.valor == d.configuracoes.pontuacaoAtual
    && d.configuracoes.nivelPerigo.classificacao == Perigo.ObterClassificacaoPerigo(d.configuracoes.pontuacaoAtual)
  }

  /** The document built when no source yields one; `agoraIso` is the clock reading it is stamped with. */
  function Padrao(agoraIso: string): (r: Documento)
    ensures Consistente(r)
    ensures r.avaliacoes.comentarios == [] && r.avaliacoes.totalLikes == 0
    ensures r.configuracoes.pontuacaoAtual == 0 && r.configuracoes.pontosPorAvaliacao == 10
    ensures r.dataUltimaAtualizacao == agoraIso
  {
    Documento(
      "1.0.0",
      agoraIso,
      Configuracoes(
        0,
        true,
        NivelPerigo(0, "BAIXO", Limites(30, 60, 90, 90)),
        10,
        "bola123"),
      Avaliacoes(0, 0, 0, []))
  }

  /**
   * `lerDados`: the stored document if there is one, else the seed document
   * shipped with the deployment, else the default. On Vercel the seed is
   * copied to the writable location through `salvarDados`, which stamps the
   * in-memory seed with `agoraIso` whether or not the copy is written.
   */
  function LerDados(armazenado: Option<Documento>, semente: Option<Documento>, naVercel: bool, agoraIso: string): (r: Documento)
    ensures armazenado.Some? ==> r == armazenado.value
    ensures armazenado.None? && semente.Some? ==>
      && r.versao == semente.value.versao
      && r.configuracoes == semente.value.configuracoes
      && r.avaliacoes == semente.value.avaliacoes
      && (!naVercel ==> r == semente.value)
      && (naVercel ==> r.dataUltimaAtualizacao == agoraIso)
    ensures armazenado.None? && semente.None? ==> r == Padrao(agoraIso)
  {
    match armazenado
    case Some(d) => d
    case None =>
      match semente
      case Some(d) => if naVercel then d.(dataUltimaAtualizacao := agoraIso) else d
      case None => Padrao(agoraIso)
  }

  /**
   * The document `lerDados` hands to `salvarDados` when, on Vercel, it falls
   * back to the seed: the seed stamped with the clock reading, which is also
   * the document the request goes on to update. None when no copy is made.
   */
  function CopiaDaSemente(armazenado: Option<Documento>, semente: Option<Documento>, naVercel: bool, agoraIso: string): (r: Option<Documento>)
    ensures r.Some? <==> armazenado.None? && semente.Some? && naVercel
    ensures r.Some? ==> r.value == LerDados(armazenado, semente, naVercel, agoraIso)
  {
    if armazenado.None? && semente.Some? && naVercel
    then Some(semente.value.(dataUltimaAtualizacao := agoraIso))
    else None
  }

  /** Lines 144-146: the comment goes first and both counters are recounted from the list. */
  function ComComentarioNoTopo(d: Documento, c: Comentario): (r: Documento)
    ensures r.avaliacoes.comentarios == [c] + d.avaliacoes.comentarios
    ensures r.avaliacoes.totalComentarios == r.avaliacoes.totalDeslikes == |d.avaliacoes.comentarios| + 1
    ensures r.avaliacoes.totalLikes == d.avaliacoes.totalLikes
    ensures r.configuracoes == d.configuracoes && r.versao == d.versao && r.dataUltimaAtualizacao == d.dataUltimaAtualizacao
  {
    var comentarios := [c] + d.avaliacoes.comentarios;
    d.(avaliacoes := d.avaliacoes.(
      comentarios := comentarios,
      totalComentarios := |comentarios|,
      totalDeslikes := |comentarios|))
  }

  /** Lines 148-150: one evaluation's points are added and the danger level follows the score. */
  function ComPontuacaoAtualizada(d: Documento): (r: Documento)
    ensures r.configuracoes.pontuacaoAtual == d.configuracoes.pontuacaoAtual + d.configuracoes.pontosPorAvaliacao
    ensures r.configuracoes.nivelPerigo.valor == r.configuracoes.pontuacaoAtual
    ensures r.configuracoes.nivelPerigo.classificacao == Perigo.ObterClassificacaoPerigo(r.configuracoes.pontuacaoAtual)
    ensures r.configuracoes.nivelPerigo.limites == d.configuracoes.nivelPerigo.limites
    ensures r.configuracoes.(pontuacaoAtual := 0, nivelPerigo := d.configuracoes.nivelPerigo) == d.configuracoes.(pontuacaoAtual := 0)
    ensures r.avaliacoes == d.avaliacoes && r.versao == d.versao && r.dataUltimaAtualizacao == d.dataUltimaAtualizacao
  {
    var pontuacao := d.configuracoes.pontuacaoAtual + d.configuracoes.pontosPorAvaliacao;
    d.(configuracoes := d.configuracoes.(
      pontuacaoAtual := pontuacao,
      nivelPerigo := d.configuracoes.nivelPerigo.(
        valor := pontuacao,
        classificacao := Perigo.ObterClassificacaoPerigo(pontuacao))))
  }

  /**
   * The document after a new comment has been prepended and the score has
   * moved by `pontosPorAvaliacao`: the comment is first, the old comments
   * follow in order, and every cached field is recomputed from the new state.
   */
  function ComNovoComentario(d: Documento, c: Comentario): (r: Documento)
    ensures |r.avaliacoes.comentarios| == |d.avaliacoes.comentarios| + 1
    ensures r.avaliacoes.comentarios[0] == c && r.avaliacoes.comentarios[1..] == d.avaliacoes.comentarios
    ensures Consistente(r)
    ensures r.configuracoes.pontuacaoAtual == d.configuracoes.pontuacaoAtual + d.configuracoes.pontosPorAvaliacao
    ensures r.avaliacoes.totalLikes == d.avaliacoes.totalLikes
    ensures r.configuracoes.pontosPorAvaliacao == d.configuracoes.pontosPorAvaliacao
    ensures r.configuracoes.senhaExclusao == d.configuracoes.senhaExclusao
    ensures r.configuracoes.alertaVisualAtivo == d.configuracoes.alertaVisualAtivo
    ensures r.configuracoes.nivelPerigo.limites == d.configuracoes.nivelPerigo.limites
    ensures r.versao == d.versao && r.dataUltimaAtualizacao == d.dataUltimaAtualizacao
  {
    ComPontuacaoAtualizada(ComComentarioNoTopo(d, c))
  }

  /** With non-negative points per evaluation a create never lowers the score or its label. */
  lemma ComNovoComentarioNaoReduz(d: Documento, c: Comentario)
    requires d.configuracoes.pontosPorAvaliacao >= 0
    ensures ComNovoComentario(d, c).configuracoes.pontuacaoAtual >= d.configuracoes.pontuacaoAtual
    ensures Perigo.Grau(ComNovoComentario(d, c).configuracoes.nivelPerigo.classificacao)
         >= Perigo.Grau(Perigo.ObterClassificacaoPerigo(d.configuracoes.pontuacaoAtual))
  {
    Perigo.ClassificacaoMonotona(d.configuracoes.pontuacaoAtual, ComNovoComentario(d, c).configuracoes.pontuacaoAtual);
  }

  /**
   * The mutable object that `JSON.parse` (or the default literal) yields and
   * that the request handler updates field by field.
   */
  class Dados {
    var versao: string
    var dataUltimaAtualizacao: string
    var configuracoes: Configuracoes
    var avaliacoes: Avaliacoes

    /** The document the object currently holds. */
    function Valor(): Documento
      reads this
    {
      Documento(versao, dataUltimaAtualizacao, configuracoes, avaliacoes)
    }

    constructor (d: Documento)
      ensures Valor() == d
    {
      versao := d.versao;
      dataUltimaAtualizacao := d.dataUltimaAtualizacao;
      configuracoes := d.configuracoes;
      avaliacoes := d.avaliacoes;
    }

    /** `comentarios.unshift(c)` followed by the recount of both counters. */
    method InserirNoTopo(c: Comentario)
      modifies this
      ensures Valor() == ComComentarioNoTopo(old(Valor()), c)
    {
      avaliacoes := avaliacoes.(comentarios := [c] + avaliacoes.comentarios);
      avaliacoes := avaliacoes.(totalComentarios := |avaliacoes.comentarios|);
      avaliacoes := avaliacoes.(totalDeslikes := |avaliacoes.comentarios|);
    }

    /** `pontuacaoAtual += pontosPorAvaliacao`, then the danger value and label are reassigned. */
    method Pontuar()
      modifies this
      ensures Valor() == ComPontuacaoAtualizada(old(Valor()))
    {
      configuracoes := configuracoes.(pontuacaoAtual := configuracoes.pontuacaoAtual + configuracoes.pontosPorAvaliacao);
      configuracoes := configuracoes.(nivelPerigo := configuracoes.nivelPerigo.(valor := configuracoes.pontuacaoAtual));
      configuracoes := configuracoes.(nivelPerigo := configuracoes.nivelPerigo.(
        classificacao := Perigo.ObterClassificacaoPerigo(configuracoes.pontuacaoAtual)));
    }
  }

  /**
   * `salvarDados`: stamps `dataUltimaAtualizacao` with the clock reading
   * before the write is attempted, so the stamp stays even when the write
   * fails; the result is whether the write succeeded.
   */
  method SalvarDados(dados: Dados, agoraIso: string, escritaOk: bool) returns (sucesso: bool)
    modifies dados
    ensures dados.Valor() == old(dados.Valor()).(dataUltimaAtualizacao := agoraIso)
    ensures sucesso == escritaOk
  {
    dados.dataUltimaAtualizacao := agoraIso;
    sucesso := escritaOk;
  }
}
